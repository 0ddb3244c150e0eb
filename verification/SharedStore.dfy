/** A host that issues a permit and executes it against one nonce store. */
module SharedStore {
  import opened Prelude
  import opened Canonical
  import opened Wire
  import opened Verification
  import opened NonceStores
  import opened Executor
  import opened Admission

  /** Issue, then execute the issued permit. Where every other check passes, the execution is refused
      exactly when the store is on disk (or the pair was consumed before): issuing left the very
      marker that consuming has to create. A refusal makes no call. */
  method IssueThenExecute(env: Env, pe: ProofEnv, a: AdmissionResult, issuer: Issuer, t: Terms,
                          approval: Option<Object>, tool: string, arguments: Json, identity: Option<string>,
                          proof: Option<Proof>, store: Store, port: ExecutorPort, signer: Issuer, dispatchId: string,
                          now: int, clock: Clock)
      returns (permit: Option<Object>, result: Result)
    requires Sound(env.codec) && port !in store.Objects()
    modifies store.Objects(), port`log
    ensures permit.Some? <==> MayIssue(a, issuer, t, approval, old(store.State()))
    ensures permit.Some? && Authorised(env, pe, Request(Dict(permit.value), tool, arguments, identity, proof), now) ==>
      (result.Refused? <==> store.Durable? || SpentIn(old(store.State()), (t.runId, t.nonce)))
    ensures result.Refused? ==> port.log == old(port.log)
    ensures !result.Refused? ==> port.log == old(port.log) + [Call(tool, arguments)]
  {
    hide Authorised, MayIssue, Sound, Digest, MarkerName;
    permit := IssuePermit(env.codec, a, issuer, t, approval, store);
    if permit.None? { return permit, Result.Refused; }
    result := ConsumeAndExecute(env, pe, Request(Dict(permit.value), tool, arguments, identity, proof), store, port,
                                signer, dispatchId, now, clock);
  }

  ghost predicate Grown(s: StoreState, t: StoreState) {
    s.OnDisk? && t.OnDisk? && t.alnum == s.alnum && s.markers <= t.markers
  }

  /** And it stays refused: no later state of a file store on which a permit was issued executes it,
      at any time, for any request. */
  lemma NeverExecutesOnDisk(a: AdmissionResult, issuer: Issuer, t: Terms, s: StoreState, later: StoreState, env: Env,
                            pe: ProofEnv, r: Request, now: int)
    requires Grown(Recorded(s, (t.runId, t.nonce)), later)
    requires r.permit.Dict? && r.permit.obj.subject == PermitSubject(a, issuer, t)
    ensures !Executes(env, pe, r, now, later)
  {
    hide Authorised, MarkerName;
  }
}
