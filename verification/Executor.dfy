/** `wire/executor.py`: verify, match, consume once, execute, receipt. */
module Executor {
  import opened Prelude
  import opened Canonical
  import opened Digests
  import opened Wire
  import opened Verification
  import opened NonceStores
  import RT = RoundTrip

  /** A signer: `sign` yields the signature text. */
  datatype Issuer = Issuer(keyId: string, identity: string, publicKey: string, sign: Subject -> string)

  function SignedObject(codec: Codec, signer: Issuer, s: Subject): Option<Object> {
    var d :- Digest(codec, s);
    Some(Object(s, d, signer.sign(s)))
  }

  // ---- constraints ----

  /** `bind_constraints`: None is a raised error (reserved key in `extra`, or arguments that are not JSON). */
  function BindConstraints(sha: string -> string, tool: string, arguments: Json,
                           extra: map<string, Constraint>): Option<map<string, Constraint>> {
    if "tool" in extra || "arguments_digest" in extra then None
    else
      var d :- DigestHex(sha, arguments);
      Some(map["tool" := Text(tool), "arguments_digest" := Text(d)] + extra)
  }

  predicate Binds(constraints: map<string, Constraint>, key: string, text: string) {
    text != "" && key in constraints && constraints[key] == Text(text)
  }

  /** The match step: the call is the one the permit binds. */
  predicate MatchOk(sha: string -> string, constraints: map<string, Constraint>, tool: string, arguments: Json) {
    Binds(constraints, "tool", tool) &&
    var d := DigestHex(sha, arguments);
    d.Some? && Binds(constraints, "arguments_digest", d.value)
  }

  /** Binding raises exactly on a reserved key or on arguments that are not JSON; otherwise it names the
      tool and the digest of the arguments and keeps every extra constraint, and adds nothing else. */
  lemma BindingSays(sha: string -> string, tool: string, arguments: Json, extra: map<string, Constraint>)
    ensures var c := BindConstraints(sha, tool, arguments, extra);
      && (c.None? <==> "tool" in extra || "arguments_digest" in extra || !Printable(arguments))
      && (c.Some? ==>
            && (forall k :: k in c.value <==> k == "tool" || k == "arguments_digest" || k in extra)
            && (forall k :: k in extra ==> c.value[k] == extra[k])
            && c.value["tool"] == Text(tool) && DigestHex(sha, arguments).Some?
            && c.value["arguments_digest"] == Text(DigestHex(sha, arguments).value))
  {
    KeysApart();
    RT.CanonSome(arguments);
    hide Canon;
  }

  // ---- sender constraint ----

  datatype Proof = Proof(kty: string, crv: string, x: string, signature: string)
  datatype PopSigning = PopSigning(x: string, permitId: string, nonce: string, signature: string)

  /** The key thumbprint function and the proofs of possession that keys really signed. */
  datatype ProofEnv = ProofEnv(thumbprint: string -> string, proofs: set<PopSigning>)

  predicate ProofOk(pe: ProofEnv, p: Proof, permitId: string, nonce: string, jkt: string) {
    && p.kty == "OKP" && p.crv == "Ed25519" && p.x != "" && p.signature != ""
    && pe.thumbprint(p.x) == jkt
    && PopSigning(p.x, permitId, nonce, p.signature) in pe.proofs
  }

  /** `_sender_constraint_findings`, skipped only when neither field is present. */
  predicate SenderOk(pe: ProofEnv, permit: Object, identity: Option<string>, proof: Option<Proof>)
    requires permit.subject.body.Permit?
  {
    var b := permit.subject.body;
    (b.aud.None? && b.cnf.None?) ||
    (&& b.aud.Some? && b.aud.value != "" && b.cnf.Some? && b.cnf.value != ""
     && identity == b.aud
     && proof.Some? && ProofOk(pe, proof.value, permit.subjectDigest, permit.subject.nonce, b.cnf.value))
  }

  datatype Request = Request(permit: Item, tool: string, arguments: Json, identity: Option<string>,
                             proof: Option<Proof>)

  /** Step 1 and 1.5: the permit verifies now, at an enforcement grade, for this sender. */
  predicate PermitOk(env: Env, pe: ProofEnv, r: Request, now: int) {
    && VerifiedItem(env, r.permit, PermitType, now)
    && r.permit.obj.subject.body.grade in {"mediated", "platform"}
    && SenderOk(pe, r.permit.obj, r.identity, r.proof)
  }

  /** Steps 1 to 2: everything that is checked before the nonce is touched. */
  predicate Authorised(env: Env, pe: ProofEnv, r: Request, now: int) {
    PermitOk(env, pe, r, now) &&
    MatchOk(env.codec.sha, r.permit.obj.subject.body.constraints, r.tool, r.arguments)
  }

  // ---- the same, said of the fields ----

  /** A permit that names a sender or a key names both, is presented by that sender, and comes with a
      proof that the key really signed over this permit and its nonce. */
  ghost predicate SenderProven(pe: ProofEnv, permit: Object, identity: Option<string>, proof: Option<Proof>) {
    permit.subject.body.Permit? && (permit.subject.body.aud.Some? || permit.subject.body.cnf.Some?) ==>
      var b := permit.subject.body;
      && b.aud.Some? && b.aud.value != "" && b.cnf.Some? && b.cnf.value != "" && identity == b.aud
      && ProvesKey(pe, permit, proof, b.cnf.value)
  }

  ghost predicate ProvesKey(pe: ProofEnv, permit: Object, proof: Option<Proof>, thumbprint: string) {
    && proof.Some? && proof.value.kty == "OKP" && proof.value.crv == "Ed25519"
    && proof.value.x != "" && proof.value.signature != ""
    && exists g :: g in pe.proofs && g.x == proof.value.x && g.signature == proof.value.signature
         && g.permitId == permit.subjectDigest && g.nonce == permit.subject.nonce && pe.thumbprint(g.x) == thumbprint
  }

  lemma SenderExactly(pe: ProofEnv, permit: Object, identity: Option<string>, proof: Option<Proof>)
    requires permit.subject.body.Permit?
    ensures SenderOk(pe, permit, identity, proof) <==> SenderProven(pe, permit, identity, proof)
  {
    if proof.Some? {
      var g := PopSigning(proof.value.x, permit.subjectDigest, permit.subject.nonce, proof.value.signature);
      assert g in pe.proofs ==> g.x == proof.value.x && g.permitId == permit.subjectDigest;
    }
  }

  /** The permit names this tool, and the digest of these arguments. */
  predicate NamesCall(sha: string -> string, constraints: map<string, Constraint>, tool: string, arguments: Json) {
    && tool != "" && "tool" in constraints && constraints["tool"] == Text(tool)
    && "arguments_digest" in constraints && constraints["arguments_digest"].Text?
    && constraints["arguments_digest"].s != "" && DigestHex(sha, arguments) == Some(constraints["arguments_digest"].s)
  }

  /** Entitled to act: a verified permit of an enforcement grade, from its sender, that names the call. */
  ghost predicate Entitled(env: Env, pe: ProofEnv, r: Request, now: int) {
    && r.permit.Dict? && Verified(env, r.permit.obj, PermitType, now) && r.permit.obj.subject.body.Permit?
    && (r.permit.obj.subject.body.grade == "mediated" || r.permit.obj.subject.body.grade == "platform")
    && SenderProven(pe, r.permit.obj, r.identity, r.proof)
    && NamesCall(env.codec.sha, r.permit.obj.subject.body.constraints, r.tool, r.arguments)
  }

  lemma AuthorisedExactly(env: Env, pe: ProofEnv, r: Request, now: int)
    ensures Authorised(env, pe, r, now) <==> Entitled(env, pe, r, now)
  {
    if r.permit.Dict? && r.permit.obj.subject.body.Permit? { SenderExactly(pe, r.permit.obj, r.identity, r.proof); }
    if VerifiedItem(env, r.permit, PermitType, now) { VerifiedType(env, r.permit.obj, PermitType, now); }
    hide Verified, SenderOk, SenderProven, DigestHex;
  }

  // ---- execution ----

  datatype Outcome = Outcome(effect: Json, executor: Party)
  datatype Call = Call(tool: string, arguments: Json)

  /** The injected `ExecutorPort`: the log is the calls made, in order. It may raise. */
  class ExecutorPort {
    var log: seq<Call>
    const respond: Call -> Option<Outcome>

    constructor (respond: Call -> Option<Outcome>)
      ensures log == [] && this.respond == respond
    {
      this.respond := respond;
      log := [];
    }

    method Execute(tool: string, arguments: Json) returns (o: Option<Outcome>)
      modifies this`log
      ensures log == old(log) + [Call(tool, arguments)] && o == respond(Call(tool, arguments))
    {
      log := log + [Call(tool, arguments)];
      o := respond(Call(tool, arguments));
    }
  }

  datatype Clock = Clock(started: int, ended: int, ttl: int)

  /** The receipt of one call: it repeats the permit's run and action, what ran, and what was observed. */
  function ReceiptSubject(permit: Subject, signer: Issuer, tool: string, argumentsDigest: string, effectDigest: string,
                          executor: Party, dispatchId: string, clock: Clock): Subject
    requires permit.body.Permit?
  {
    Subject(signer.identity, clock.started, Some(clock.ended + clock.ttl), permit.runId, permit.nonce + ":receipt",
            signer.keyId,
            ToolReceipt(tool, argumentsDigest, effectDigest, clock.started, clock.ended, executor, dispatchId,
                        permit.body.permitAction, None))
  }

  /** What a receipt reports, field by field. */
  predicate ReceiptReports(s: Subject, permit: Subject, signer: Issuer, call: Call, argumentsDigest: string,
                           outcome: Outcome, effectDigest: string, dispatchId: string, clock: Clock)
  {
    && s.issuer == signer.identity && s.keyId == signer.keyId && s.runId == permit.runId
    && s.nonce == permit.nonce + ":receipt" && s.issuedAt == clock.started
    && s.expiresAt == Some(clock.ended + clock.ttl)
    && s.body.ToolReceipt? && permit.body.Permit? && s.body.toolAction == permit.body.permitAction
    && s.body.tool == call.tool && s.body.argumentsDigest == argumentsDigest && s.body.effectDigest == effectDigest
    && s.body.executor == outcome.executor && s.body.dispatchId == dispatchId
    && s.body.startedAt == clock.started && s.body.endedAt == clock.ended && s.body.toolPrev.None?
  }

  /** Raised: the call was made, and raised or had an effect that could not be digested; no receipt. */
  datatype Result = Refused | Raised | Receipted(receipt: Object)

  /** Every check passes and the nonce is unspent. */
  predicate Executes(env: Env, pe: ProofEnv, r: Request, now: int, s: StoreState) {
    Authorised(env, pe, r, now) && !SpentIn(s, NonceOf(r.permit.obj.subject))
  }

  /** `consume_and_execute`. */
  method ConsumeAndExecute(env: Env, pe: ProofEnv, r: Request, store: Store, port: ExecutorPort,
                           signer: Issuer, dispatchId: string, now: int, clock: Clock) returns (result: Result)
    requires port !in store.Objects()
    modifies store.Objects(), port`log
    ensures result.Refused? <==> !Executes(env, pe, r, now, old(store.State()))
    // A refusal changes nothing.
    ensures result.Refused? ==> port.log == old(port.log) && store.State() == old(store.State())
    // Otherwise exactly this call is made, once, and exactly this nonce is spent.
    ensures !result.Refused? ==> port.log == old(port.log) + [Call(r.tool, r.arguments)]
    ensures !result.Refused? ==> store.State() == Consumed(old(store.State()), NonceOf(r.permit.obj.subject))
    // A receipt reports this call and its effect; none is built exactly when there is nothing to report.
    ensures result.Receipted? ==>
      var o := port.respond(Call(r.tool, r.arguments));
      var args := DigestHex(env.codec.sha, r.arguments);
      && args.Some? && o.Some? && DigestHex(env.codec.sha, o.value.effect).Some?
      && SignedObject(env.codec, signer,
           ReceiptSubject(r.permit.obj.subject, signer, r.tool, args.value,
                          DigestHex(env.codec.sha, o.value.effect).value, o.value.executor, dispatchId, clock))
         == Some(result.receipt)
    ensures result.Receipted? ==>
      var call := Call(r.tool, r.arguments);
      var args, o := DigestHex(env.codec.sha, r.arguments), port.respond(call);
      && args.Some? && o.Some? && DigestHex(env.codec.sha, o.value.effect).Some?
      && ReceiptReports(result.receipt.subject, r.permit.obj.subject, signer, call, args.value, o.value,
                        DigestHex(env.codec.sha, o.value.effect).value, dispatchId, clock)
    // Said of the fields: who is refused.
    ensures result.Refused? <==>
      !Entitled(env, pe, r, now) || SpentIn(old(store.State()), NonceOf(r.permit.obj.subject))
    ensures result.Raised? && Sound(env.codec) ==>
      var o := port.respond(Call(r.tool, r.arguments)); o.None? || DigestHex(env.codec.sha, o.value.effect).None?
  {
    AuthorisedExactly(env, pe, r, now);
    hide Verified, DigestHex, SenderOk, Canon, Sound, MarkerName, Entitled;
    if r.permit.NotADict? { return Refused; }
    var permit := r.permit.obj;
    if !Verified(env, permit, PermitType, now) { return Refused; }
    assert permit.subject.body.Permit? by { VerifiedType(env, permit, PermitType, now); }
    if permit.subject.body.grade !in {"mediated", "platform"} { return Refused; }
    if !SenderOk(pe, permit, r.identity, r.proof) { return Refused; }
    var constraints := permit.subject.body.constraints;
    if !Binds(constraints, "tool", r.tool) { return Refused; }
    var actual := DigestHex(env.codec.sha, r.arguments);
    if actual.None? { return Refused; }
    if !Binds(constraints, "arguments_digest", actual.value) { return Refused; }
    var first := store.Consume(NonceOf(permit.subject));
    if !first {
      SpentAlready(old(store.State()), NonceOf(permit.subject));
      return Refused;
    }
    var outcome := port.Execute(r.tool, r.arguments);
    if outcome.None? { return Raised; }
    var effect := DigestHex(env.codec.sha, outcome.value.effect);
    if effect.None? { return Raised; }
    var s := ReceiptSubject(permit.subject, signer, r.tool, actual.value, effect.value, outcome.value.executor,
                            dispatchId, clock);
    if Digest(env.codec, s).None? {
      SoundDigest(env.codec, s);
      return Raised;
    }
    return Receipted(SignedObject(env.codec, signer, s).value);
  }

  lemma SoundDigest(codec: Codec, s: Subject)
    ensures Sound(codec) ==> Digest(codec, s).Some?
  {}

  lemma VerifiedType(env: Env, o: Object, t: WireType, now: int)
    requires Verified(env, o, t, now)
    ensures TypeOf(o.subject.body) == t && Digest(env.codec, o.subject) == Some(o.subjectDigest)
  {}

  // ---- the binding round trip ----

  /** The constraints `issue_permit` puts in a permit: the caller's, with the approver's
      reservations taking the place of any the caller supplied. */
  function MergedConstraints(constraints: map<string, Constraint>, reservations: seq<string>): map<string, Constraint> {
    if reservations != [] then constraints["reservations" := Texts(reservations)] else constraints
  }

  /** A hash with no collisions and no empty output. */
  ghost predicate Hashing(sha: string -> string) { CollisionFree(sha) && forall text :: sha(text) != "" }

  lemma KeysApart()
    ensures "tool" != "arguments_digest" && "tool" != "reservations" && "arguments_digest" != "reservations"
  {
    assert |"tool"| == 4 && |"arguments_digest"| == 16 && |"reservations"| == 12;
  }

  /** A bound permit passes the match step for exactly its (non-empty) tool and for arguments with
      the same canonical text, whatever extra constraints and reservations travel with it. */
  lemma BindingRoundTrip(sha: string -> string, tool: string, arguments: Json, extra: map<string, Constraint>,
                         reservations: seq<string>, tool': string, arguments': Json)
    requires Hashing(sha) && BindConstraints(sha, tool, arguments, extra).Some?
    ensures MatchOk(sha, MergedConstraints(BindConstraints(sha, tool, arguments, extra).value, reservations), tool',
                    arguments')
      <==> tool != "" && tool' == tool && Canon(arguments') == Canon(arguments)
  {
    hide Canon;
    KeysApart();
  }
}
