/**
 arena/passport.py: signed declarations of an agent version. Signatures and hashes
 are parameters; what is modelled is which declarations are signed, which are accepted
 and what their identifiers pin down.
 */
module Passport {
  import opened Wrappers
  import opened JsonValues
  import opened Utf8
  import opened Canonical
  import opened CanonicalInverse
  import Base64
  import Transcript

  const PASSPORT_SCHEMA := "agentbattles.agent-version.v1"
  const RAW_PUBLIC_KEY_BYTES := 32
  const SIGNATURE_BYTES := 64
  const DISPLAY_NAME_MAX := 64
  const VERSION_LABEL_MAX := 80
  const CLAIMED_MODEL_MAX := 120

  // A byte string ending in NUL, which separates a domain from what it prefixes.
  function Domain(name: string): seq<Byte> {
    Utf8.Encode(name) + [0]
  }

  type Key = seq<Byte>

  // SHA-256, Ed25519, and the two Unicode questions asked of a text field.
  datatype Scheme = Scheme(
    sha: Sha,
    publicOf: Key -> seq<Byte>,
    sign: (Key, seq<Byte>) -> seq<Byte>,
    verify: (seq<Byte>, seq<Byte>, seq<Byte>) -> bool,
    invisible: char -> bool,
    nfc: string -> string)

  // Signatures made with a key verify under its public half; sizes are Ed25519's.
  ghost predicate Sound(scheme: Scheme) {
    forall key, message ::
      && |scheme.publicOf(key)| == RAW_PUBLIC_KEY_BYTES
      && |scheme.sign(key, message)| == SIGNATURE_BYTES
      && scheme.verify(scheme.publicOf(key), scheme.sign(key, message), message)
  }

  const PROOF_SCOPE: Body := map[
    "signedStatement" := Str("key-holder-signed-this-version-declaration"),
    "keyBoundAgentId" := Bool(true),
    "entrantIdentityAttested" := Bool(false),
    "modelAttested" := Bool(false),
    "runtimeAttested" := Bool(false),
    "personAttested" := Bool(false),
    "executionClaimsAttested" := Bool(false)]

  // Python's == between the recorded value and a constant of the scope: an int that
  // equals a bool passes. A float would too, and is refused when it has to be encoded.
  predicate LooselyEqual(recorded: Json, expected: Json) {
    recorded == expected || (expected.Bool? && recorded == Int(if expected.b then 1 else 0))
  }

  predicate IsProofScope(j: Json) {
    j.Obj? && j.fields.Keys == PROOF_SCOPE.Keys && forall k | k in j.fields :: LooselyEqual(j.fields[k], PROOF_SCOPE[k])
  }

  // _text_field, as a test. A str with a lone surrogate is refused for its category.
  predicate IsTextField(scheme: Scheme, value: Json, limit: nat) {
    && value.Str? && 0 < |value.s| <= limit
    && Transcript.Stripped(value.s) == value.s
    && (forall c | c in value.s :: !scheme.invisible(c))
    && scheme.nfc(value.s) == value.s
  }

  // A value that is None or meets a test.
  predicate NullOrText(scheme: Scheme, value: Json, limit: nat) {
    value == Null || IsTextField(scheme, value, limit)
  }

  predicate NullOrHex(value: Json) {
    value == Null || Hex64Value(value)
  }

  function AgentPreimage(rawPublic: seq<Byte>): seq<Byte> {
    Domain("agentbattles.agent-id.v1") + rawPublic
  }

  function AgentId(scheme: Scheme, rawPublic: seq<Byte>): string {
    scheme.sha(AgentPreimage(rawPublic))
  }

  function VersionId(scheme: Scheme, message: seq<Byte>): string {
    scheme.sha(message)
  }

  // What a caller declares about an agent version.
  datatype Claims = Claims(displayName: Json, versionLabel: Json, parentVersionId: Json, harnessSha256: Json,
                           claimedModel: Json)

  predicate Declarable(scheme: Scheme, c: Claims) {
    && NullOrHex(c.parentVersionId) && Hex64Value(c.harnessSha256)
    && IsTextField(scheme, c.displayName, DISPLAY_NAME_MAX)
    && IsTextField(scheme, c.versionLabel, VERSION_LABEL_MAX)
    && NullOrText(scheme, c.claimedModel, CLAIMED_MODEL_MAX)
  }

  function DeclarationOf(agentId: Json, c: Claims, publicKey: Json, proofScope: Json): Body {
    map["schema" := Str(PASSPORT_SCHEMA), "agentId" := agentId,
        "displayName" := c.displayName, "versionLabel" := c.versionLabel,
        "parentVersionId" := c.parentVersionId, "harnessSha256" := c.harnessSha256,
        "claimedModel" := c.claimedModel, "publicKey" := publicKey, "proofScope" := proofScope]
  }

  // unsigned_declaration
  function UnsignedDeclaration(scheme: Scheme, c: Claims, rawPublic: seq<Byte>): Option<Body> {
    if !Declarable(scheme, c) || |rawPublic| != RAW_PUBLIC_KEY_BYTES then None
    else Some(DeclarationOf(Str(AgentId(scheme, rawPublic)), c, Str(Base64.Encode(rawPublic)), Obj(PROOF_SCOPE)))
  }

  // signing_bytes
  function SigningBytes(declaration: Body): Option<seq<Byte>> {
    match CanonicalBytes(Obj(declaration))
    case Ok(bytes) => Some(Domain(PASSPORT_SCHEMA) + bytes)
    case Err(_) => None
  }

  function Signed(declaration: Body, versionId: Json, signature: Json): Body {
    declaration["versionId" := versionId]["signature" := signature]
  }

  // The signing half of sign_passport.
  function SignDeclaration(scheme: Scheme, key: Key, declaration: Body): Option<Body> {
    match SigningBytes(declaration)
    case None => None
    case Some(message) =>
      Some(Signed(declaration, Str(VersionId(scheme, message)), Str(Base64.Encode(scheme.sign(key, message)))))
  }

  // sign_passport
  function SignPassport(scheme: Scheme, key: Key, c: Claims): Option<Body> {
    match UnsignedDeclaration(scheme, c, scheme.publicOf(key))
    case None => None
    case Some(declaration) => SignDeclaration(scheme, key, declaration)
  }

  // The declaration of a key's holder, with a proof scope of their own.
  function ScopedDeclaration(scheme: Scheme, key: Key, c: Claims, scope: Json): Body {
    var raw := scheme.publicOf(key);
    DeclarationOf(Str(AgentId(scheme, raw)), c, Str(Base64.Encode(raw)), scope)
  }

  const TOP_LEVEL_KEYS: set<string> :=
    {"schema", "agentId", "displayName", "versionId", "versionLabel", "parentVersionId", "harnessSha256",
     "claimedModel", "publicKey", "signature", "proofScope"}

  predicate TopLevel(p: Body) {
    p.Keys == TOP_LEVEL_KEYS
  }

  function ClaimsOf(p: Body): Claims {
    Claims(Get(p, "displayName"), Get(p, "versionLabel"), Get(p, "parentVersionId"), Get(p, "harnessSha256"),
      Get(p, "claimedModel"))
  }

  function Declared(p: Body): Body {
    DeclarationOf(Get(p, "agentId"), ClaimsOf(p), Get(p, "publicKey"), Get(p, "proofScope"))
  }

  // The checks of verify_passport once both base64 fields are read.
  predicate Attests(scheme: Scheme, p: Body, rawPublic: seq<Byte>, signature: seq<Byte>) {
    && Hex64Value(Get(p, "agentId")) && Declarable(scheme, ClaimsOf(p))
    && Get(p, "agentId") == Str(AgentId(scheme, rawPublic))
    && SigningBytes(Declared(p)).Some?
    && var message := SigningBytes(Declared(p)).value;
    && Get(p, "versionId") == Str(VersionId(scheme, message))
    && scheme.verify(rawPublic, signature, message)
  }

  // verify_passport: every refusal is a PassportError, and the passport comes back.
  function VerifyPassport(scheme: Scheme, passport: Json): Option<Body> {
    if !passport.Obj? || !TopLevel(passport.fields) then None
    else
      var p := passport.fields;
      if Get(p, "schema") != Str(PASSPORT_SCHEMA) || !IsProofScope(Get(p, "proofScope")) then None
      else
        match (Base64.Strict(Get(p, "publicKey"), RAW_PUBLIC_KEY_BYTES),
          Base64.Strict(Get(p, "signature"), SIGNATURE_BYTES))
        case (Some(rawPublic), Some(signature)) =>
          if Attests(scheme, p, rawPublic, signature) then Some(Normalized(p)) else None
        case _ => None
  }

  // normalized_public_dict
  function Normalized(p: Body): Body {
    Signed(Declared(p), Get(p, "versionId"), Get(p, "signature"))["schema" := Get(p, "schema")]
  }

  lemma NormalizedIsWhole(p: Body)
    requires TopLevel(p)
    ensures Normalized(p) == p
  {
    assert Normalized(p).Keys == p.Keys;
    forall k | k in p ensures Normalized(p)[k] == p[k] {
    }
  }

  /** What verify_passport accepts it returns unchanged. */
  lemma VerifiedIsUnchanged(scheme: Scheme, passport: Json)
    requires VerifyPassport(scheme, passport).Some?
    ensures passport == Obj(VerifyPassport(scheme, passport).value)
  {
    NormalizedIsWhole(passport.fields);
    hide Base64.Strict, Attests, IsProofScope, Normalized;
  }

  lemma ScopeEncodable()
    ensures Encodable(Obj(PROOF_SCOPE)) && IsProofScope(Obj(PROOF_SCOPE))
  {
    var m := PROOF_SCOPE;
    forall k | k in m ensures Checked(m[k]) && Textual(m[k]) && LooselyEqual(m[k], m[k]) {
    }
  }

  lemma LooseScopeEncodable(scope: Json)
    requires IsProofScope(scope)
    ensures Encodable(scope)
  {
    ScopeEncodable();
    var m := scope.fields;
    hide PROOF_SCOPE;
    forall k | k in m ensures Checked(m[k]) && Textual(m[k]) {
      assert LooselyEqual(m[k], PROOF_SCOPE[k]);
    }
  }

  lemma DeclarationEncodable(scheme: Scheme, agentId: string, c: Claims, publicKey: string, scope: Json)
    requires Declarable(scheme, c) && Encodable(scope)
    ensures Encodable(Obj(DeclarationOf(Str(agentId), c, Str(publicKey), scope)))
  {
    var d := DeclarationOf(Str(agentId), c, Str(publicKey), scope);
    forall k | k in d ensures Checked(d[k]) && Textual(d[k]) {
    }
  }

  lemma SignedKeys(d: Body, c: Claims, agentId: Json, publicKey: Json, scope: Json, versionId: Json, signature: Json)
    requires d == DeclarationOf(agentId, c, publicKey, scope)
    ensures var p := Signed(d, versionId, signature);
      && TopLevel(p)
      && Get(p, "schema") == Str(PASSPORT_SCHEMA) && Get(p, "proofScope") == scope
      && Get(p, "publicKey") == publicKey && Get(p, "signature") == signature && Get(p, "versionId") == versionId
      && Get(p, "agentId") == agentId && ClaimsOf(p) == c && Declared(p) == d
  {
  }

  /** A declaration that can be made can be signed, and verify_passport accepts the
      result and returns it unchanged. */
  lemma SignedVerifies(scheme: Scheme, key: Key, c: Claims)
    requires Sound(scheme)
    ensures SignPassport(scheme, key, c).Some? <==> Declarable(scheme, c)
    ensures SignPassport(scheme, key, c).Some? ==>
      VerifyPassport(scheme, Obj(SignPassport(scheme, key, c).value)) == SignPassport(scheme, key, c)
  {
    hide Declarable, PROOF_SCOPE, IsProofScope, Encodable, Base64.Encode, AgentId, DeclarationOf, Sound,
         VerifyPassport, SignDeclaration;
    PublicKeysAreSized(scheme, key);
    ScopeEncodable();
    if Declarable(scheme, c) {
      SignedScopeVerifies(scheme, key, c, Obj(PROOF_SCOPE));
    }
  }

  lemma PublicKeysAreSized(scheme: Scheme, key: Key)
    requires Sound(scheme)
    ensures |scheme.publicOf(key)| == RAW_PUBLIC_KEY_BYTES
  {
    assert |scheme.sign(key, [])| == SIGNATURE_BYTES;
  }

  /** A signature over any encodable proof scope is made as readily, and verify_passport
      accepts it exactly if Python finds that scope equal to the fixed statement. */
  lemma SignedScopeVerifies(scheme: Scheme, key: Key, c: Claims, scope: Json)
    requires Sound(scheme) && Declarable(scheme, c) && Encodable(scope)
    ensures var signed := SignDeclaration(scheme, key, ScopedDeclaration(scheme, key, c, scope));
      && signed.Some?
      && (VerifyPassport(scheme, Obj(signed.value)).Some? <==> IsProofScope(scope))
      && (IsProofScope(scope) ==> VerifyPassport(scheme, Obj(signed.value)) == signed)
  {
    hide Domain, AgentId, Base64.Encode, Declarable, Utf8.Encode, Text, Hex64, IsProofScope;
    var raw := scheme.publicOf(key);
    PublicKeysAreSized(scheme, key);
    var d := ScopedDeclaration(scheme, key, c, scope);
    DeclarationEncodable(scheme, AgentId(scheme, raw), c, Base64.Encode(raw), scope);
    assert SigningBytes(d).Some?;
    var message := SigningBytes(d).value;
    var signature := scheme.sign(key, message);
    assert |signature| == SIGNATURE_BYTES && scheme.verify(raw, signature, message);
    SignedKeys(d, c, Str(AgentId(scheme, raw)), Str(Base64.Encode(raw)), scope,
               Str(VersionId(scheme, message)), Str(Base64.Encode(signature)));
    hide DeclarationOf, SigningBytes, Sound, VerifyPassport, Signed, Declared, TopLevel, VersionId;
    Accepts(scheme, SignDeclaration(scheme, key, d).value, raw, signature, message);
  }

  /** An accepted passport carries the fixed statement exactly if no value in its proof
      scope is an int. */
  lemma FixedStatementIff(scheme: Scheme, passport: Json)
    requires VerifyPassport(scheme, passport).Some?
    ensures var scope := Get(passport.fields, "proofScope");
      && scope.Obj?
      && (scope == Obj(PROOF_SCOPE) <==> forall k | k in scope.fields :: !scope.fields[k].Int?)
  {
    ScopeIsPassed(scheme, passport);
    hide VerifyPassport;
    ScopeHoldsNoInt();
    var m := Get(passport.fields, "proofScope").fields;
    hide PROOF_SCOPE;
    if forall k | k in m :: !m[k].Int? {
      assert forall k | k in m :: m[k] == PROOF_SCOPE[k];
      assert m == PROOF_SCOPE;
    }
  }

  lemma ScopeIsPassed(scheme: Scheme, passport: Json)
    requires VerifyPassport(scheme, passport).Some?
    ensures passport.Obj? && IsProofScope(Get(passport.fields, "proofScope"))
  {
    hide Base64.Strict, Attests, IsProofScope, Normalized, TopLevel;
  }

  lemma ScopeHoldsNoInt()
    ensures forall k | k in PROOF_SCOPE :: !PROOF_SCOPE[k].Int?
  {
  }

  /** The two come apart: a passport whose scope says 1 for true is accepted and comes back
      as it is, though it is not the fixed statement. */
  lemma LooseScopeIsAccepted(scheme: Scheme, key: Key, c: Claims)
    requires Sound(scheme) && Declarable(scheme, c)
    ensures var scope := Obj(PROOF_SCOPE["keyBoundAgentId" := Int(1)]);
      var signed := SignDeclaration(scheme, key, ScopedDeclaration(scheme, key, c, scope));
      && scope != Obj(PROOF_SCOPE)
      && signed.Some? && VerifyPassport(scheme, Obj(signed.value)) == signed
  {
    OneForTrue();
    var scope := Obj(PROOF_SCOPE["keyBoundAgentId" := Int(1)]);
    LooseScopeEncodable(scope);
    hide PROOF_SCOPE, IsProofScope, Declarable, Sound, SignDeclaration, ScopedDeclaration, VerifyPassport;
    SignedScopeVerifies(scheme, key, c, scope);
  }

  lemma OneForTrue()
    ensures var scope := Obj(PROOF_SCOPE["keyBoundAgentId" := Int(1)]);
      IsProofScope(scope) && scope != Obj(PROOF_SCOPE)
  {
    assert PROOF_SCOPE["keyBoundAgentId"] == Bool(true);
  }

  // The checks of verify_passport, once their outcome is known.
  lemma Accepts(scheme: Scheme, p: Body, raw: seq<Byte>, signature: seq<Byte>, message: seq<Byte>)
    requires TopLevel(p) && Get(p, "schema") == Str(PASSPORT_SCHEMA)
    requires |raw| == RAW_PUBLIC_KEY_BYTES && Get(p, "publicKey") == Str(Base64.Encode(raw))
    requires |signature| == SIGNATURE_BYTES && Get(p, "signature") == Str(Base64.Encode(signature))
    requires Declarable(scheme, ClaimsOf(p)) && Get(p, "agentId") == Str(AgentId(scheme, raw))
    requires SigningBytes(Declared(p)) == Some(message) && Get(p, "versionId") == Str(VersionId(scheme, message))
    requires scheme.verify(raw, signature, message)
    ensures IsProofScope(Get(p, "proofScope")) ==> VerifyPassport(scheme, Obj(p)) == Some(p)
    ensures !IsProofScope(Get(p, "proofScope")) ==> VerifyPassport(scheme, Obj(p)) == None
  {
    hide Base64.Strict, Base64.Encode, SigningBytes, Declared, IsProofScope, Declarable, Normalized, PROOF_SCOPE;
    hide Attests, AgentId, ClaimsOf, TopLevel, VersionId, Domain, Get, TOP_LEVEL_KEYS;
    Attested(scheme, p, raw, signature, message);
    Base64.StrictIsCanonical(Get(p, "publicKey"), RAW_PUBLIC_KEY_BYTES, raw);
    Base64.StrictIsCanonical(Get(p, "signature"), SIGNATURE_BYTES, signature);
    NormalizedIsWhole(p);
  }

  lemma AgentIdIsHex(scheme: Scheme, raw: seq<Byte>)
    ensures Hex64(AgentId(scheme, raw))
  {
    hide AgentPreimage, Hex64;
  }

  lemma Attested(scheme: Scheme, p: Body, raw: seq<Byte>, signature: seq<Byte>, message: seq<Byte>)
    requires Declarable(scheme, ClaimsOf(p)) && Get(p, "agentId") == Str(AgentId(scheme, raw))
    requires SigningBytes(Declared(p)) == Some(message) && Get(p, "versionId") == Str(VersionId(scheme, message))
    requires scheme.verify(raw, signature, message)
    ensures Attests(scheme, p, raw, signature)
  {
    hide Declarable, SigningBytes, Declared, Hex64, ClaimsOf, VersionId;
    AgentIdIsHex(scheme, raw);
  }

  // What is known of an accepted passport.
  lemma VerifiedFacts(scheme: Scheme, passport: Json)
    requires VerifyPassport(scheme, passport).Some?
    ensures passport.Obj? && TopLevel(passport.fields)
    ensures var p := passport.fields;
      && SigningBytes(Declared(p)).Some?
      && Get(p, "versionId") == Str(VersionId(scheme, SigningBytes(Declared(p)).value))
      && Base64.Strict(Get(p, "publicKey"), RAW_PUBLIC_KEY_BYTES).Some?
      && Get(p, "agentId") == Str(AgentId(scheme, Base64.Strict(Get(p, "publicKey"), RAW_PUBLIC_KEY_BYTES).value))
  {
    hide Base64.Strict, SigningBytes, Declared, IsProofScope, Declarable, Normalized, AgentId;
  }

  lemma PrefixKeepsApart(prefix: seq<Byte>, x: seq<Byte>, y: seq<Byte>)
    requires prefix + x == prefix + y
    ensures x == y
  {
    assert x == (prefix + x)[|prefix|..] && y == (prefix + y)[|prefix|..];
  }

  /** Two accepted passports with one versionId carry the same declaration, or their
      signing bytes are a collision of the hash. */
  lemma EqualVersionsMeanEqualDeclarations(scheme: Scheme, a: Json, b: Json)
    requires VerifyPassport(scheme, a).Some? && VerifyPassport(scheme, b).Some?
    requires Get(a.fields, "versionId") == Get(b.fields, "versionId")
    ensures a.Obj? && b.Obj?
    ensures SigningBytes(Declared(a.fields)).Some? && SigningBytes(Declared(b.fields)).Some?
    ensures
      || Declared(a.fields) == Declared(b.fields)
      || Collision(scheme.sha, SigningBytes(Declared(a.fields)).value, SigningBytes(Declared(b.fields)).value)
  {
    VerifiedFacts(scheme, a);
    VerifiedFacts(scheme, b);
    hide VerifyPassport, Declared, CanonicalBytes;
    var x, y := SigningBytes(Declared(a.fields)).value, SigningBytes(Declared(b.fields)).value;
    if x == y {
      SameBytesSameDeclaration(Declared(a.fields), Declared(b.fields));
    }
  }

  lemma SameBytesSameDeclaration(d: Body, e: Body)
    requires SigningBytes(d).Some? && SigningBytes(d) == SigningBytes(e)
    ensures d == e
  {
    hide Domain, CanonicalBytes;
    PrefixKeepsApart(Domain(PASSPORT_SCHEMA), CanonicalBytes(Obj(d)).value, CanonicalBytes(Obj(e)).value);
    SameCanonicalBytes(Obj(d), Obj(e));
  }

  lemma SameCanonicalBytes(a: Json, b: Json)
    requires CanonicalBytes(a).Ok? && CanonicalBytes(a) == CanonicalBytes(b)
    ensures a == b
  {
    hide Text, Utf8.Encode;
    CanonicalBytesInjective(a, b);
  }

  /** Two accepted passports with one agentId hold the same public key, or the bytes
      hashed for it are a collision. */
  lemma EqualAgentsMeanEqualKeys(scheme: Scheme, a: Json, b: Json)
    requires VerifyPassport(scheme, a).Some? && VerifyPassport(scheme, b).Some?
    requires Get(a.fields, "agentId") == Get(b.fields, "agentId")
    ensures Base64.Strict(Get(a.fields, "publicKey"), RAW_PUBLIC_KEY_BYTES).Some?
    ensures Base64.Strict(Get(b.fields, "publicKey"), RAW_PUBLIC_KEY_BYTES).Some?
    ensures
      || Get(a.fields, "publicKey") == Get(b.fields, "publicKey")
      || Collision(scheme.sha, AgentPreimage(Base64.Strict(Get(a.fields, "publicKey"), RAW_PUBLIC_KEY_BYTES).value),
                   AgentPreimage(Base64.Strict(Get(b.fields, "publicKey"), RAW_PUBLIC_KEY_BYTES).value))
  {
    VerifiedFacts(scheme, a);
    VerifiedFacts(scheme, b);
    hide VerifyPassport, Declared, SigningBytes, Base64.Strict, Base64.Encode, AgentId, AgentPreimage, Collision;
    var x := Base64.Strict(Get(a.fields, "publicKey"), RAW_PUBLIC_KEY_BYTES).value;
    var y := Base64.Strict(Get(b.fields, "publicKey"), RAW_PUBLIC_KEY_BYTES).value;
    if x == y {
      Base64.StrictIsCanonical(Get(a.fields, "publicKey"), RAW_PUBLIC_KEY_BYTES, x);
      Base64.StrictIsCanonical(Get(b.fields, "publicKey"), RAW_PUBLIC_KEY_BYTES, y);
    } else {
      DifferentKeysCollide(scheme, x, y);
    }
  }

  lemma DifferentKeysCollide(scheme: Scheme, x: seq<Byte>, y: seq<Byte>)
    requires x != y && AgentId(scheme, x) == AgentId(scheme, y)
    ensures Collision(scheme.sha, AgentPreimage(x), AgentPreimage(y))
  {
    hide Domain;
    if AgentPreimage(x) == AgentPreimage(y) {
      PrefixKeepsApart(Domain("agentbattles.agent-id.v1"), x, y);
    }
  }
}
