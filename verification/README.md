# a2a-compliance, modelled and proved

This project models the receipt-and-permit protocol for governed agent actions, and the control
channel that steers the agent, and proves what the protocol promises. `dafny verify dfyconfig.toml`
checks all of it.

## What is modelled

**Canonical JSON.** `Utf16`, `KeyOrder`, `NumberLayout` and `Canonical` are the RFC 8785 printer of
`wire/canonical.py`: string escapes, the ECMA-262 number layout, UTF-16 key order. `JsonReader` is
an independent reader of JSON text, and `RoundTrip` and `Digests` prove that it undoes the printer,
so that a text, and with a collision-free hash a digest, determines the value. `Signing` covers the
bytes that are signed (DSSE pre-authentication encoding, UTF-8, base64url, key thumbprints).

**The permit pipeline.** `Wire` gives wire objects as records; `WireCodec` gives them as the dicts
the program builds and proves those dicts tell all subjects apart, and `WireDicts` what they say name by
name. `Verification`, `NonceStores`,
`Admission`, `Lifecycle`, `Executor`, `Reconciliation` (with `EffectDigests`), `Certification`, `Chain` and
`AuditChain` are the program's modules: methods and classes in the program's own imperative form, each proved
against a condition that says when it accepts. `ExecutorRuns` interleaves any number of executor
calls step by step, and `SharedStore` issues and executes against one nonce store. `Pipeline` is the
whole protocol as one state machine among outsiders who may sign anything with keys of their own; its
main theorems are `Provenance` and `CertifiedAuditsIffSingle`. `Completion` shows that with its keys
provisioned the pipeline carries an action to its certificate, and `Witness` builds the runs that show
how far the safety theorems reach and where they stop.

**The control channel.** `Inbox` is the numbered mailbox and `InboxRuns` its claims, publishes and
polls by any number of senders. `Participant` is the maker that polls, verifies and applies;
`ParticipantRuns` is about every run of messages. `Halting` is the approval-gated halt and
`HaltRuns` is about every sequence of halts against either kind of nonce store.

## How it is modelled

- Signatures are ideal: the environment holds the set of signatures that were made, and one
  verifies only if its key made it on that subject. SHA-256 is a function from text to text; results
  that need it say `CollisionFree`. JSON Schema validation is an arbitrary predicate on subjects.
- The modules above `Wire` take a digest function that gives every subject a digest of its own
  (`Wire.Sound`); `WireCodec.CodecSound` proves that the digest of the real dicts is one.
- Times are integers. An expiry that is not a date-time is an absent expiry.
- `str.isalnum`, which decides which characters file names keep, is a parameter; results use of it
  only what it says of ASCII.
- Python's shortest-digit `repr` is taken as given: a float is a sign, digit strings and an exponent.
- Error lists are counted, not worded; where a property needs the kind of refusal it is a datatype.
- `Pipeline` assumes a trust store that lets one honest key issue each of permits, tool receipts,
  reconciliations and certificates, and components that sign only through their own functions.
  `Witness.WorkshopIsSound` gives a world where all of this holds.
- The executor never writes `prev_digest`. `World.linking` says whether the host extends it to do so;
  results about the executor as it is say `!w.linking`.
- The conditions of the components are predicates that methods evaluate and contracts quote. Each has
  a partner, named `...Exactly`, `...Says` or `...Spelled`, that states it again over the raw fields,
  names, texts and code units, in both directions.
- A function that computes what a loop of the program computes stands beside the method with that
  loop; lemmas speak about the function.

## Results that are negative

The code does not always do what a reader might expect. For each, the lemmas named give an input or a
run and the exact condition.

- An int of size 10^21 or more and the float of the same value print differently, and no others do
  (`Digests.IntFloatAgree`).
- The sort key confuses an astral character with its two surrogates spelled out, and nothing else
  (`Utf16.KeyNotInjective`, `Utf16.SameKeyExactly`, `Utf16.SharesKeyExactly`); strings with surrogates
  have no UTF-8 text anyway.
- A chain with its tail dropped is accepted (`Chain.DroppedTailAccepted`), and every other list that
  ends in the same receipt is rejected (`Chain.LastFixesChain`).
- No executor receipt names its predecessor, so an audit accepts runs of one tool receipt only.
  `certify` signs over any number, and what it signs audits clean exactly when that number is one
  (`Pipeline.CertifiedAuditsIffSingle`, `Witness.PairNeverAudits`). `Pipeline.AuditedRunHappened`
  has instances of more than one receipt only where the host links them (`Witness.AuditedPair`).
- `certify` compares action digests and not receipt lists, so a certificate can list a receipt whose
  effect nobody observed (`Witness.UnseenReceiptCertified`). The effect was observed when the receipt
  is among those reconciled, and only then where nothing extra was observed (`Pipeline.MatchedEffects`).
- `certify` signs for one receipt listed twice (`Certifying.RepeatedReceiptAccepted`); no audit accepts
  that (`AuditChain.RepeatNeverAudits`).
- `verify_human_approval` for a role other than human still demands the role human as well
  (`Verification.OtherRolesNeedHuman`, `Verification.SupervisorRejected`).
- Marker files of different pairs can be one file, for exactly the pairs of
  `NonceStores.MarkerAloneExactly`, and with a readable pair for those of
  `NonceStores.MarkersCollideExactly`. Single use still holds (`NonceStores.NeverTwice`), but a valid
  halt receipt is refused exactly when an earlier halt left a marker in its way
  (`HaltRuns.RefusedExactlyOnClash`, `HaltRuns.StoresPart`), and the stores dispatch alike exactly when
  that never happens (`HaltRuns.StoresAgreeExactly`).
- The mark of a used next-action scope is itself a nonce a receipt may carry. In memory such a session
  receipt counts as used, unspent, exactly when its run had a next-action halt
  (`HaltRuns.MemoryDispatchesExactly`, `HaltRuns.ScopeMarkIsANonce`).
- `issue_permit` keeps issuer and approver apart by the approval it is passed, which need not be the
  one the admission rests on; with none the approver can issue (`Admission.ApproverKeptApartExactly`).
- The file store shares one marker between `record` and `consume`, so a permit issued and executed
  against one store executes exactly when the store is in memory (`SharedStore.IssueThenExecute`,
  `SharedStore.NeverExecutesOnDisk`).
- A message is lost exactly when its number is 10^12 or more or a poll goes past it between its claim
  and its publish (`InboxRuns.LostExactly`, `InboxRuns.SkipHappens`, `Inbox.TooLateToArrive`).
- Every Ed25519 public key has several base64url spellings, and they have different thumbprints
  (`Signing.SecondSpelling`, `Signing.SpellingsExactly`, `Signing.OneSpellingExactly`).
- A halt that spends its approval need not stop the maker: it does exactly when a key the maker trusts
  for the agent signed it, unexpired, under a new nonce (`HaltRuns.DispatchedHaltStops`), so never
  without a signer (`HaltRuns.UnsignedHaltRejected`).

## Where code and documentation differ

The code is followed.

- `wire/canonical.py` says numbers follow ECMA-262 Number::toString (lines 5-7); ints are printed by
  `str` instead (lines 93-94), which differs from 10^21 on (`Digests.IntFloatAgree`).
- `inbox.py` says an addressee consumes its new messages in order (lines 3-5); one published behind
  the cursor is never consumed (`InboxRuns.LostExactly`).
- `nonce_store.py` says there is one marker per pair (line 26); names are sanitised first, so pairs
  can share one (`NonceStores.MarkerAloneExactly`).
- `wire/verification.py` says a human approval needs a key bound to the role the caller names (lines
  324-327); it needs the role human as well (lines 343-346, `Verification.OtherRolesNeedHuman`).
- `wire/reconciliation.py` calls an effect missing when the host observed none; an observed JSON null
  is called missing as well (lines 157-159, `Reconciling.CleanExactly`).

## Model

| member | source | states |
|---|---|---|
| Utf16.Utf16Key | a2a_compliance/wire/canonical.py:17-29 | The loop appends exactly the UTF-16 code units of each character: one unit, or a surrogate pair for an astral one |
| Utf16.DecodeKeyIff | a2a_compliance/wire/canonical.py:17-29 | Decoding undoes the key for exactly the strings with no high surrogate code point directly before a low one |
| Utf16.KeyNotInjective | a2a_compliance/wire/canonical.py:17-29 | Off those strings the key is ambiguous: U+10000 and the two code points U+D800 U+DC00 have one key |
| Utf16.SameKeyExactly | a2a_compliance/wire/canonical.py:17-29 | Two strings of code points have one key if and only if they agree once each high-low pair is joined to the character it spells |
| Utf16.KeyOwner | a2a_compliance/wire/canonical.py:17-29 | Of the strings without such a pair exactly one has a given string's key: that string with its pairs joined |
| Utf16.SharesKeyExactly | a2a_compliance/wire/canonical.py:17-29 | A string shares its key with another if and only if it has an astral character or such a pair |
| Utf16.KeyInjective | a2a_compliance/wire/canonical.py:17-29 | On well-formed strings (Unicode scalar values) equal keys come from equal strings |
| KeyOrder.StrictTotalOrder | a2a_compliance/wire/canonical.py:99-101 | The key comparison is a strict total order: irreflexive, asymmetric, transitive, and it tells any two distinct strings apart |
| KeyOrder.SortAscending | a2a_compliance/wire/canonical.py:99-101 | Sorting items with distinct keys by the UTF-16 key puts them in strictly ascending order |
| KeyOrder.SortedByUnits | a2a_compliance/wire/canonical.py:17-29 | The earlier of two sorted keys has, at the first UTF-16 code unit where they differ, the smaller unit, or ends there |
| KeyOrder.SortUnique | a2a_compliance/wire/canonical.py:99-101 | The sorted item list does not depend on insertion order, and is the only ascending arrangement of the items |
| NumberLayout.FloatDigitsValue | a2a_compliance/wire/canonical.py:57-66 | Stripping leading and trailing zeros and moving the point keeps the decimal that the `repr` text denotes |
| NumberLayout.LayoutTriple | a2a_compliance/wire/canonical.py:57-66 | The stripped digits and the point position are the (s, k, n) triple of ECMA-262 Number::toString for that decimal |
| NumberLayout.EsTripleUnique | a2a_compliance/wire/canonical.py:60-66 | No two triples name one value, so the standard's digits and exponent are determined |
| NumberLayout.LayoutIsEcma | a2a_compliance/wire/canonical.py:39-81 | In all four regimes the text is the standard's text for every triple the standard allows, with a sign exactly for negative values |
| NumberLayout.ScientificSpelled | a2a_compliance/wire/canonical.py:74-81 | Outside the plain regimes the text is a mantissa without e, then e, then the sign of the exponent with + written out, then its magnitude without a leading zero |
| NumberLayout.LayoutOfValue | a2a_compliance/wire/canonical.py:39-81 | Two spellings of one decimal (such as 100.0 and 1e2) print alike |
| RoundTrip.ReadFloat | a2a_compliance/wire/canonical.py:39-81 | Reading the printed number gives back exactly the decimal the float denotes, whatever text follows |
| RoundTrip.ReadEncoded | a2a_compliance/wire/canonical.py:32-36 | Reading an encoded string gives the string back, whatever text follows |
| RoundTrip.EscapeSpelled | a2a_compliance/wire/canonical.py:32-36 | A quote, a backslash and the five named controls get two characters, other controls a lower-case \u escape, and every other character stands as it is (section 3.2.2.2 of RFC 8785) |
| RoundTrip.CanonSome | a2a_compliance/wire/canonical.py:84-102 | A value has a canonical text exactly when it holds no NaN, no infinity and no object that is not JSON |
| RoundTrip.ReadCanon | a2a_compliance/wire/canonical.py:84-102 | The reader undoes the printer on every well-formed value nested to any depth, with objects as key maps and numbers as decimals, whatever text follows |
| RoundTrip.ObjectSpelled | a2a_compliance/wire/canonical.py:99-102 | The text of an object is its members between braces, each once, with commas and no blanks, in the order of the UTF-16 code units of their keys (section 3.2.3 of RFC 8785) |
| Digests.ReadAllCanon | a2a_compliance/wire/canonical.py:105-107 | Parsing a whole canonical text gives the value's meaning back |
| Digests.CanonInjective | a2a_compliance/wire/canonical.py:105-107 | Equal canonical texts imply equal values |
| Digests.IntFloatAgree | a2a_compliance/wire/canonical.py:93-96 | An int and a float of one value print alike if and only if the int is below 10^21 in size; above that the converse of injectivity fails |
| Digests.CanonOfMeaning | a2a_compliance/wire/canonical.py:84-102 | With ints below 10^21 the text depends on the meaning alone, so equal values have equal texts |
| Digests.CanonPermuted | a2a_compliance/wire/canonical.py:99-101 | A dict and any reordering of its items have one canonical text, with no bound on its numbers |
| Digests.DigestInjective | a2a_compliance/wire/canonical.py:114-116 | With a collision-free hash, equal digests imply equal values |
| Digests.SubjectDigestPins | a2a_compliance/wire/canonical.py:119-135 | A subject digest pins every field but `signature` and `subject_digest` |
| Digests.SubjectDigestStable | a2a_compliance/wire/canonical.py:119-135 | Changing only those two fields, or the order of the items, leaves the digest alone |
| WireCodec.FieldLookup | a2a_compliance/wire/executor.py:258-275 | A dict written field by field says, under each name, what its field holds, and nothing where an optional field was left out |
| WireCodec.EncodeInjective | a2a_compliance/wire/certification.py:271-288 | Distinct subjects, of one type or of two, are distinct dicts as values |
| WireCodec.DigestPinsSubject | a2a_compliance/wire/canonical.py:114-135 | With a collision-free hash every subject's dict has a digest, and the digest pins the subject |
| WireCodec.CodecSound | a2a_compliance/wire/canonical.py:114-135 | The digest of the concrete dicts is sound, which is all that the pipeline and chain results ask of a digest function |
| WireDicts.PermitSays | a2a_compliance/wire/admission.py:491-520 | A permit's dict has under each of its names exactly that field: type and version, signer, run and times, action, grade, adapter, sender, key thumbprint and pinned digest |
| WireDicts.PermitConstraintsSay | a2a_compliance/wire/admission.py:491-520 | And its constraints, each text or list of texts under its own key |
| WireDicts.ToolReceiptSays | a2a_compliance/wire/executor.py:258-275 | A tool receipt's dict has under each of its names exactly that field, and no `prev_digest` where there is none |
| WireDicts.ReconciliationSays | a2a_compliance/wire/reconciliation.py:197-218 | A reconciliation's dict has under each of its names exactly that field, and three lists that are always empty |
| WireDicts.CertificateSays | a2a_compliance/wire/certification.py:271-288 | A certificate's dict has under each of its names exactly that field |
| Signing.Utf8Injective | a2a_compliance/wire/canonical.py:110-111 | UTF-8 text has one spelling: equal bytes come from equal strings |
| Signing.Utf8Spelled | a2a_compliance/wire/canonical.py:110-111 | Each character gets the shortest form, its lead byte telling the length and the others continuations (RFC 3629) |
| Signing.ReadPaeUndoes | a2a_compliance/wire/signing.py:40-45 | Decoding the DSSE pre-authentication encoding gives type and payload back, for all of them |
| Signing.ReadPaeUnique | a2a_compliance/wire/signing.py:40-45 | Whatever decodes is the encoding of what it decodes to, so each pair has one spelling |
| Signing.SignedBytesPin | a2a_compliance/wire/signing.py:48-53 | The signed bytes of two dicts agree only if all fields outside `signature` and `subject_digest` do |
| Signing.SignedBytesStable | a2a_compliance/wire/signing.py:48-53 | Changing `signature`, `subject_digest` or the order of the fields leaves the signed bytes alone |
| Signing.PopBytesPin | a2a_compliance/wire/signing.py:127-134 | Proof-of-possession bytes pin the permit and the nonce |
| Signing.PopSpelled | a2a_compliance/wire/signing.py:127-134 | The text signed is the nonce and the permit's digest under their names, and nothing else |
| Signing.SignedTextsApart | a2a_compliance/wire/signing.py:40-53 | The signed bytes of a wire object, a control envelope, a pinned governance block and a proof of possession are pairwise different, though all use one payload type; those of a pin or a possession pin every field |
| Signing.ThumbprintPins | a2a_compliance/wire/signing.py:106-117 | The thumbprint, base64url of the hash of the canonical JWK, always exists and pins the key's `x` text |
| Signing.JwkSpelled | a2a_compliance/wire/signing.py:106-117 | The text hashed is the curve, the key type and `x`, in that order and nothing else (RFC 7638) |
| Signing.Decode64Undoes | a2a_compliance/wire/signing.py:90-96 | Unpadded base64url decoding undoes encoding for every byte string (section 5 of RFC 4648) |
| Signing.SpellingsExactly | a2a_compliance/wire/signing.py:90-96 | Over the alphabet a text decodes to a byte string if and only if it is its encoding up to the spare bits of the last character, which decoding drops |
| Signing.OneSpellingExactly | a2a_compliance/wire/signing.py:90-96 | A byte string has one spelling if and only if its length is a multiple of three |
| Signing.SecondSpelling | a2a_compliance/wire/signing.py:94-117 | So every key of another length, and an Ed25519 key has 32 bytes, has a second `x` text that decodes to it, with another thumbprint |
| Verification.Verify | a2a_compliance/wire/verification.py:213-296 | Accepts exactly on schema, digest, expiry, tool ownership, trust, human binding, revocation and replay together, with either kind of nonce store or none; a nonce is recorded only on acceptance; an expired object, or one whose key, run or action is revoked by now, is rejected |
| Verification.RejectedExactly | a2a_compliance/wire/verification.py:97-210 | Rejected if and only if the type, shape or digest is wrong, or it is expired, revoked in its key, run or action, usurps another role's tool, is unsigned, or its key may not issue it, act in its role or approve as its human |
| Verification.TypesNamed | a2a_compliance/wire/verification.py:213-240 | The name a trust store must list for each type of object |
| Verification.VerifyHumanApproval | a2a_compliance/wire/verification.py:306-379 | The approver is answered exactly when plain `verify` accepts the receipt for the role human, the key has the role the caller asks for, and the approver is not the sender |
| Verification.OtherRolesNeedHuman | a2a_compliance/wire/verification.py:343-359 | For a role of the caller's own, a receipt that `verify` accepts for that role passes here if and only if the key is bound to the role human as well |
| Verification.SupervisorRejected | a2a_compliance/wire/verification.py:343-359 | So a key bound to supervisor alone is rejected when supervisor is the role asked for |
| Verification.VerifiedEarlier | a2a_compliance/wire/verification.py:185-210 | What verifies at a later time with more revocations verifies at every earlier time with fewer |
| Verification.RevocationStore.Revoke | a2a_compliance/wire/trust.py:123-139 | Nothing is ever un-revoked, and a revocation counts exactly from its effective time on |
| NonceStores.InMemoryNonceStore.Consume | a2a_compliance/wire/verification.py:69-75 | True exactly the first time a pair is consumed; `record` bookkeeping is untouched |
| NonceStores.InMemoryNonceStore.Record | a2a_compliance/wire/verification.py:66-67 | Recording adds one pair and leaves consumption alone |
| NonceStores.SafeComponent | a2a_compliance/nonce_store.py:43-46 | Whatever `isalnum` says, the result is safe, as long as the input, and the input itself when that is safe |
| NonceStores.SafeSpelled | a2a_compliance/nonce_store.py:43-46 | Letters, digits, dash, underscore and dot stay and every other character becomes an underscore |
| NonceStores.MarkerInjective | a2a_compliance/nonce_store.py:66-68 | On splittable runs and safe nonces distinct pairs have distinct marker files |
| NonceStores.MarkersCollideExactly | a2a_compliance/nonce_store.py:66-68 | A pair shares its marker with another, readable pair if and only if it is not readable itself, readable being a splittable run with a safe nonce |
| NonceStores.MarkerAloneExactly | a2a_compliance/nonce_store.py:43-68 | A marker serves one pair alone if and only if neither part has an underscore or a character that sanitising replaces |
| NonceStores.FileNonceStore.Consume | a2a_compliance/nonce_store.py:88-89 | True exactly when the marker did not exist; afterwards it does |
| NonceStores.FileNonceStore.Record | a2a_compliance/nonce_store.py:85-86 | Recording creates the same marker that consuming would |
| NonceStores.NeverTwice | a2a_compliance/nonce_store.py:70-89 | Whatever the naming function, of two pairs with one marker only the first can be consumed |
| NonceStores.FileStoreRefines | a2a_compliance/nonce_store.py:70-89 | Every success of the file store is a success of the abstract once-only set; where names do not collide they agree call by call |
| NonceStores.FileStoreAgrees | a2a_compliance/nonce_store.py:66-89 | With the real names they agree on splittable runs and safe nonces |
| Executor.BindingRoundTrip | a2a_compliance/wire/executor.py:100-111 | A permit issued with bound constraints passes the match step for exactly that tool and for arguments with the same canonical text, whatever else it carries |
| Executor.BindingSays | a2a_compliance/wire/executor.py:100-111 | Binding raises exactly on a reserved key or arguments that are not JSON; else it names the tool and the digest, keeps every extra constraint and adds nothing else |
| Executor.ConsumeAndExecute | a2a_compliance/wire/executor.py:158-278 | With either store: refused exactly when the permit does not verify, is not of an enforcement grade, is not presented by its sender with a proof of its key, does not name the call, or its nonce was spent, and then nothing changes; otherwise exactly this call happens once and exactly this nonce is spent, and there is a receipt, of that call and effect field by field, unless the call raised or its effect has no digest |
| Executor.AuthorisedExactly | a2a_compliance/wire/executor.py:118-155 | Authorised if and only if entitled: verified permit, grade, call, and for a permit with an audience or a key both, the identity, and an Ed25519 proof over this permit and nonce by the key with that thumbprint |
| ExecutorRuns.RunInv | a2a_compliance/wire/executor.py:186-278 | Tickets, markers, effects and receipts stay consistent through every interleaving of any number of calls with time and revocations |
| ExecutorRuns.AtMostOneEffect | a2a_compliance/wire/executor.py:245-255 | Each (run_id, nonce) has at most one effect under every interleaving, with either store's naming |
| ExecutorRuns.EffectsEarned | a2a_compliance/wire/executor.py:191-241 | Every effect was authorised at an earlier moment: its permit verified then, at an enforcement grade, from its sender, and names this very tool and these arguments |
| ExecutorRuns.ConstrainedEffectsProven | a2a_compliance/wire/executor.py:118-155 | An effect under a permit that names a sender or a key was asked for by that sender, with a proof this key signed over this very permit and nonce |
| ExecutorRuns.Conservation | a2a_compliance/wire/executor.py:245-278 | Spent nonces are effects plus calls about to act, and effects are receipts plus calls not yet filed or crashed; so receipts <= effects <= nonces |
| ExecutorRuns.RejectedCallsDoNotMatter | a2a_compliance/wire/executor.py:186-249 | Calls that never consume can be deleted from any run: the rest is a run with the same effects, receipts, nonces and phases |
| ExecutorRuns.UninterruptedCall | a2a_compliance/wire/executor.py:158-278 | Stepped without interruption, a call goes through exactly when the sequential function would not refuse it, with its one effect, nonce and receipt |
| Admission.IndexAndVerify | a2a_compliance/wire/admission.py:138-172 | No finding exactly when every receipt verifies, is bound and reports a capability of its own; the index holds one such receipt for every such capability |
| Admission.Admit | a2a_compliance/wire/admission.py:323-424 | ADMITTED exactly on the whole condition; a kind prohibited or undeclared is REFUSED, a declared one with the pin holding never is, a reserved one needs its approval and no other does; the result carries the action, the approval's reservations and the pinned digest |
| Admission.AdmissibleExactly | a2a_compliance/wire/admission.py:345-412 | The condition is: kind declared and not prohibited, pin holds, approval where reserved, every receipt verified and of this action, no tool reported twice, every preflight tool cleared, every obligation acknowledged |
| Admission.PinExactly | a2a_compliance/wire/admission.py:229-320 | A pin holds if and only if it is of this very block, signed under a key of the store for governance blocks in the author's role and own identity, other than the maker |
| Admission.ApprovalExactly | a2a_compliance/wire/admission.py:175-222 | An approval counts if and only if it verifies, approves this action at a known scope, and its human is authorised for the kind in the named role |
| Admission.AdmissionPermuted | a2a_compliance/wire/admission.py:392-424 | Admission does not depend on the order of the receipts |
| Admission.IssuePermit | a2a_compliance/wire/admission.py:434-522 | With either store a permit exists exactly from an ADMITTED admission, by an issuer other than the approver, under a new nonce, with audience and confirmation together; a refusal records nothing |
| Admission.GrantsExactly | a2a_compliance/wire/admission.py:473-514 | A permit grants, field by field, the admitted action, the host's terms (run, nonce, times, grade, adapter, audience, key), the pinned digest, the caller's constraints and the approver's reservations, and nothing else |
| Admission.ReservationsReachPermit | a2a_compliance/wire/admission.py:401-479 | For a reserved kind, whatever constraints the caller supplies, the issued permit carries the reservations of an approval that verified for this kind, and still matches exactly the call that was bound |
| Admission.ApproverKeptApartExactly | a2a_compliance/wire/admission.py:460-466 | The approver an admission rests on can never issue its permit if and only if the approval passed to issuing has that approver and that key; with none passed the approver can |
| SharedStore.IssueThenExecute | a2a_compliance/nonce_store.py:85-89 | Issuing a permit and executing it against one store, with every other check passing, is refused if and only if the store is on disk or the pair was already spent; a refusal makes no call |
| SharedStore.NeverExecutesOnDisk | a2a_compliance/nonce_store.py:52-59 | No later state of a file store on which a permit was issued executes it, at any time, for any request |
| Lifecycle.Index | a2a_compliance/lifecycle.py:114-129 | No finding exactly when every receipt is bound, reported by the owner and not a duplicate; then every receipt is found under its key |
| Lifecycle.ReceiptFindings | a2a_compliance/lifecycle.py:132-141 | Missing, open and failed are told exactly as the receipts say, and all three are empty exactly when every required tool is settled |
| Lifecycle.EnforcePreview | a2a_compliance/lifecycle.py:144-186 | ADMITTED exactly on the whole preview condition, REFUSED exactly on a refused plan, HELD exactly on the held-back condition, and ROUTED_HUMAN otherwise |
| Lifecycle.PreviewableExactly | a2a_compliance/lifecycle.py:144-186 | ADMITTED is: not refused, routed or corrected, ready, receipts of this action from the owners with no tool twice, and every preflight tool cleared |
| Lifecycle.HeldBackExactly | a2a_compliance/lifecycle.py:161-181 | HELD is: a correction asked for, or every preflight tool reported, none open or erroneous, and some failed |
| Lifecycle.AdmittedIsPreviewed | a2a_compliance/wire/admission.py:392-424 | For a ready plan with nothing to steer whose receipts report owned `tool:` capabilities, what admission admits the preview admits |
| Lifecycle.Reconcile | a2a_compliance/lifecycle.py:189-220 | Certified exactly when the preview admitted this action, the dispatch is bound to it, the receipts are proper, every postflight tool is cleared, and the oversight check too where a human's approval is referred to |
| Reconciling.Collect | a2a_compliance/wire/reconciliation.py:129-147 | Keeps exactly the receipts that verify and bind to the permit; none is invalid exactly when all do |
| Reconciling.Residuals | a2a_compliance/wire/reconciliation.py:153-182 | No residual exactly when some receipt is there, nothing is unmatched, every intended tool delivered and every effect matches |
| Reconciling.Reconcile | a2a_compliance/wire/reconciliation.py:83-221 | A record exists exactly for an enforced permit and digestible effects; it is certified exactly when all receipts are valid and every effect matches, lists the missing tools in order, and carries the digests of what was intended and observed |
| Reconciling.RecordedExactly | a2a_compliance/wire/reconciliation.py:176-180 | A tool is missing exactly when no receipt that verifies for this action reports it |
| Reconciling.RecordPinsEffects | a2a_compliance/wire/reconciliation.py:189-217 | Two reconciliations that end in one record had the same intended effects, the same effects under the same receipts and the same ones without a receipt |
| EffectDigests.IntendedPins | a2a_compliance/wire/reconciliation.py:194 | Equal intended digests mean the same tools with the same effects |
| EffectDigests.ObservedPins | a2a_compliance/wire/reconciliation.py:189-193 | Equal observed digests mean the same effects under the same receipt digests and the same unmatched effects in order |
| EffectDigests.AnyListing | a2a_compliance/wire/reconciliation.py:189-194 | The digests do not depend on the order the dicts list their items in |
| EffectDigests.ObservedSpelled | a2a_compliance/wire/reconciliation.py:189-193 | The observed digest is over the effects by receipt and the unmatched ones under their names |
| Reconciling.CleanExactly | a2a_compliance/wire/reconciliation.py:116-187 | A reconciliation is clean if and only if it is by the documented rule and no receipt's observed effect is JSON null |
| Reconciling.NullEffectIsMissing | a2a_compliance/wire/reconciliation.py:157-164 | For one receipt that meets the documented rule the code disagrees if and only if the observed effect is null, and then the run is never clean |
| Reconciling.CleanEarlier | a2a_compliance/wire/reconciliation.py:116-187 | What reconciles clean at a later time also does at every earlier time with fewer revocations |
| Certifying.FindDischarge | a2a_compliance/wire/certification.py:131-148 | Finds evidence exactly when some verifies for this obligation and action, and then the first |
| Certifying.RoleConflicts | a2a_compliance/wire/certification.py:94-128 | No conflict exactly when the signer differs from issuer, reconciler, recorders, executors and approver |
| Certifying.DischargeAll | a2a_compliance/wire/certification.py:243-253 | The digests match the obligations one for one and in order |
| Certifying.Certify | a2a_compliance/wire/certification.py:151-291 | A certificate exists exactly on the whole condition, and names the permit, the record, the receipts in order and the discharges in order |
| Certifying.CertifiableExactly | a2a_compliance/wire/certification.py:94-262 | The condition is: an enforced permit, some receipts, each verified and of its action, a verified record of it that is certified with nothing left over, evidence for every obligation, every source fresh, and a certifier that is none of the parties and signs with none of their keys |
| Certifying.RepeatedReceiptAccepted | a2a_compliance/wire/certification.py:183-203 | Listing a receipt once more never changes whether a certificate is signed |
| Chain.VerifyChain | a2a_compliance/wire/chain.py:43-118 | Accepts exactly when every element verifies, the first names the anchor, every other names the digest of its predecessor and, where there is a nonce store, every nonce is new when its element's turn comes; the store afterwards is given exactly, rejected chains included |
| Chain.ChainExactly | a2a_compliance/wire/chain.py:70-118 | Accepted without a store if and only if not empty, every element verified, the first holding the anchor in its link field or nothing, and every other the digest of the element before it |
| Chain.FreshExactly | a2a_compliance/wire/chain.py:70-118 | With either store that replay check is that none of the chain's nonces is seen and no two take one place in the store: equal in memory, one marker on disk |
| Chain.LastFixesLinks | a2a_compliance/wire/chain.py:65-118 | Two genesis-linked lists whose last elements have one subject are equal element by element |
| Chain.LastFixesChain | a2a_compliance/wire/chain.py:65-118 | Against an accepted chain, every other list with the same last subject (permuted, shortened or substituted) is rejected by every verifier at every time |
| Chain.ChainDistinct | a2a_compliance/wire/chain.py:65-118 | The elements of an accepted genesis chain are pairwise distinct |
| Chain.DroppedTailAccepted | a2a_compliance/wire/chain.py:65-118 | Every non-empty prefix of an accepted chain is accepted: a dropped tail goes unnoticed |
| Chain.ChainEarlier | a2a_compliance/wire/chain.py:70-118 | An accepted chain is accepted at every earlier time with fewer revocations |
| AuditChain.AuditChainVerify | a2a_compliance/wire/audit_chain.py:37-105 | Accepts exactly when the chains and objects verify and the certificate holds the digests of this permit, this record and these receipts in order |
| AuditChain.CertificatePinsRun | a2a_compliance/wire/audit_chain.py:84-103 | Two accepted audits whose certificates have one subject have one permit, one record and one ordered receipt list |
| AuditChain.CertifiedAuditsClean | a2a_compliance/wire/audit_chain.py:54-105 | What `certify` signs audits clean at that time if and only if the certificate itself verifies, its receipts are linked from a genesis one, and the stage receipts, if any, are a chain |
| AuditChain.RepeatNeverAudits | a2a_compliance/wire/audit_chain.py:54-105 | A run that lists one receipt twice is never accepted by an audit |
| AuditChain.AuditEarlier | a2a_compliance/wire/audit_chain.py:54-105 | An accepted audit is accepted at every earlier time with fewer revocations |
| Pipeline.RunInv | a2a_compliance/wire/admission.py:449-522 | Through every run each history entry follows from earlier ones, honest keys sign only through their component, nonces perform once and calls are filed once |
| Pipeline.VerifiedWasMade | a2a_compliance/wire/verification.py:110-139 | A permit, receipt, record or certificate that verifies was made by its component, whatever outsiders signed |
| Pipeline.GroundPermit | a2a_compliance/wire/admission.py:449-522 | A verified permit was issued from an admission on which the whole condition held, for a kind declared and not prohibited, and grants exactly the host's terms; a reserved kind has its approval, whose reservations the permit carries |
| Pipeline.GroundReceipt | a2a_compliance/wire/executor.py:251-278 | A verified tool receipt has a real call behind it, entitled by a grounded permit of its action, with this tool, these arguments and this effect |
| Pipeline.ConstrainedTermsHold | a2a_compliance/wire/admission.py:481-512 | A permit issued with an audience and a key is performed only for that identity, with a proof by that key over this permit and nonce |
| Pipeline.GroundRecord | a2a_compliance/wire/reconciliation.py:116-221 | A verified record reconciled a grounded permit of its action and, if certified, found everything clean |
| Pipeline.Provenance | a2a_compliance/wire/certification.py:151-291 | In every run each signed certificate rests on an admission that held, a permit issued from it, a clean reconciliation of the same action, a real authorised call behind each listed receipt, and verified evidence behind each discharge it lists; and its signer is none of the parties |
| Pipeline.MatchedEffects | a2a_compliance/wire/certification.py:193-241 | The effect of a listed receipt was observed if the receipt is among those the named record reconciled, and only if, where nothing beyond them was observed; intended effects were delivered and nothing was unmatched |
| Pipeline.AuditedRunHappened | a2a_compliance/wire/audit_chain.py:54-105 | Where the host links receipts, an accepted audit of n receipts stands for n distinct real calls under n distinct nonces, and its permit, record and certificate are grounded |
| Pipeline.LinkedIsSingle | a2a_compliance/wire/executor.py:258-275 | Receipts as the executor writes them are linked from a genesis one if and only if there is exactly one of them |
| Pipeline.AuditIsSingle | a2a_compliance/wire/audit_chain.py:54-105 | With the executor as it is, an accepted audit has exactly one tool receipt |
| Pipeline.CertifiedAuditsIffSingle | a2a_compliance/wire/certification.py:183-291 | What `certify` signs, over any number of such receipts, audits clean if and only if it lists one receipt and the certificate verifies |
| Witness.PairNeverAudits | a2a_compliance/wire/certification.py:183-291 | A reachable certificate over two reconciled receipts of one action: it verifies, and the audit of its run is rejected |
| Witness.UnseenReceiptCertified | a2a_compliance/wire/certification.py:193-241 | A reachable certificate that verifies and lists a receipt whose effect was not observed in the reconciliation it names |
| Witness.AuditedPair | a2a_compliance/wire/audit_chain.py:54-105 | With a linking host, a reachable run of two receipts is certified and audited clean |
| Witness.WorkshopIsSound | a2a_compliance/wire/trust.py:51-100 | Its trust store lets exactly one key issue each component's type, and every component's key is ready |
| Completion.SignedVerifies | a2a_compliance/wire/verification.py:110-210 | What a provisioned component signed verifies when the schema accepts it, it is unexpired, and its own key, run and action are unrevoked |
| Completion.CertifyFires | a2a_compliance/wire/certification.py:151-291 | Whatever receipts the record was about, `certify` signs for any list of receipts that verify and bind, with any obligations discharged and any sources fresh, for a certifier that is none of the other parties |
| Completion.PipelineCompletes | a2a_compliance/wire/certification.py:151-291 | From every reachable state, with any revocations, an admissible action under a new nonce, sender-constrained or not, whose permit, receipt and record are of the right shape, unexpired and unrevoked, whose obligations are discharged and sources fresh, and whose certifier is none of the other parties, is led by admit, issue, check, perform, file, reconcile and certify to a signed certificate of that action and its one receipt |
| Inbox.FreeUnique | a2a_compliance/inbox.py:35-48 | A number is the one the claim loop claims as soon as it is free and every smaller one is taken |
| Inbox.FileInbox.NextSeq | a2a_compliance/inbox.py:35-48 | The claim loop ends and claims the least free number of the mailbox |
| Inbox.FileInbox.Put | a2a_compliance/inbox.py:50-69 | Publishes the message under the claimed number and changes no other mailbox |
| Inbox.FileInbox.Poll | a2a_compliance/inbox.py:86-99 | Returns exactly the messages past the cursor, by number, and moves the cursor to the last |
| Inbox.PendingIs | a2a_compliance/inbox.py:86-99 | Those are exactly the published numbers of the range, in strictly ascending order |
| Inbox.ExactlyOnce | a2a_compliance/inbox.py:50-99 | For up to 10^12 whole puts in any order with polls, the polls together return an initial segment of the puts in order, and all of them after a last poll |
| Inbox.TooLateToArrive | a2a_compliance/inbox.py:60-97 | A message numbered 10^12 or more is on disk, and whatever is put and polled afterwards, all polls return what they would had it never been published |
| InboxRuns.ClaimsAreInitialSegment | a2a_compliance/inbox.py:35-48 | With any number of senders stepping at once, claimed numbers have no gap and no repeat |
| InboxRuns.ProbesBounded | a2a_compliance/inbox.py:40-48 | A sender still probing has failed fewer times than there are senders, so allocation ends |
| InboxRuns.AtMostOnceInOrder | a2a_compliance/inbox.py:86-99 | Across all polls the delivered numbers strictly ascend, and each message is what the number's owner sent |
| InboxRuns.LostExactly | a2a_compliance/inbox.py:50-99 | A published message is never delivered, whatever happens next, if and only if its number is 10^12 or more or some poll left the cursor above its number while that was claimed and unpublished |
| InboxRuns.NothingSkipped | a2a_compliance/inbox.py:50-99 | If no poll ever went past an open claim, one more poll completes the delivery of everything published, in order |
| InboxRuns.SkipHappens | a2a_compliance/inbox.py:50-99 | Such a run exists: two senders, the second publishes and is polled before the first publishes, and the first message is not delivered |
| Authority.Roster.Assign | a2a_compliance/authority.py:82-90 | A first assignment narrows a role that oversaw everyone to that maker; later ones widen it by one; other roles are untouched |
| Authority.DeniedExactly | a2a_compliance/authority.py:93-140 | A verb is denied if and only if it does not steer, the role is not a compliance role, the maker is not among the role's, or the role has none where it needs some |
| Participant.ControlParticipant.VerifyEnvelope | a2a_compliance/participant.py:166-271 | With either store, accepts exactly a genuine envelope whose (sender, nonce) was not seen; the pair is recorded only on acceptance |
| Participant.ControlParticipant.AcceptDirective | a2a_compliance/participant.py:297-332 | Applies issue-directive, hold or resume to the state and acknowledges it |
| Participant.ControlParticipant.HaltNow | a2a_compliance/participant.py:354-371 | Sets halted, changes nothing else, and acknowledges |
| Participant.ControlParticipant.Checkpoint | a2a_compliance/participant.py:375-409 | Drains the mailbox, folds every message in order into the state, and posts exactly the replies to the compliance actor |
| ParticipantRuns.BatchesJoin | a2a_compliance/participant.py:375-409 | One checkpoint over all messages and several over parts of them end alike |
| ParticipantRuns.RejectedDoNotMatter | a2a_compliance/participant.py:391-409 | Deleting any of the rejected messages changes neither the final state nor any other verdict |
| ParticipantRuns.StateIsFoldOfAccepted | a2a_compliance/participant.py:297-371 | In authenticated mode the final state is the plain fold of the accepted messages alone |
| ParticipantRuns.OneReplyEach | a2a_compliance/participant.py:391-409 | Every message gets exactly one reply, to the compliance actor, correlated with it and telling its verdict |
| ParticipantRuns.BareAnswersSteering | a2a_compliance/participant.py:391-409 | Over any run in bare mode every message is applied, and the replies are one advisory answer to each message that steers, in order |
| ParticipantRuns.AppliedAtMostOnce | a2a_compliance/participant.py:247-269 | Each (sender, nonce) is applied at most once |
| ParticipantRuns.HaltedIffAccepted | a2a_compliance/participant.py:354-371 | Halted holds at the end exactly if it held at the start or a halt was accepted |
| ParticipantRuns.HeldByLastAccepted | a2a_compliance/participant.py:297-332 | Held, its reference and its conditions are those of the last accepted hold or resume |
| ParticipantRuns.AcceptedIsGenuine | a2a_compliance/participant.py:166-271 | An accepted message was signed unexpired by the key bound to its sender, who holds an overseeing compliance role |
| ParticipantRuns.GenuineExactly | a2a_compliance/participant.py:166-265 | Genuine if and only if signed as it stands by a key for control messages, in the sender's role and bound to the sender, unexpired, with a nonce, from a role that may drive this verb here |
| ParticipantRuns.DirectivesAreAccepted | a2a_compliance/participant.py:297-332 | The maker ends with the directives it had and those of the accepted messages, with their ids, kinds and instructions, in order |
| ParticipantRuns.ReplySays | a2a_compliance/participant.py:271-371 | A reply is from the maker to the compliance actor about the message: an acknowledgement with its verdict and mode, or the state asked for |
| ParticipantRuns.RepliesPosted | a2a_compliance/participant.py:391-409 | The replies are appended, in order, to the compliance actor's mailbox, and no other is touched |
| ParticipantRuns.AcceptedExactly | a2a_compliance/participant.py:166-271 | With either store a message is accepted if and only if it is genuine, its pair was not seen at the start, and no earlier accepted message takes its place in the store |
| Halting.HaltDigestBinds | a2a_compliance/envelope.py:313-328 | A halt digest always exists and pins agent, maker and reason |
| Halting.HaltDigestSpelled | a2a_compliance/envelope.py:313-328 | The text digested is the agent, the reason or null, the maker and the verb under their names, and nothing else |
| Halting.ComplianceAgent.VerifyHaltApproval | a2a_compliance/channel.py:297-396 | The first failing check decides, in the order of the code; only a dispatched halt spends its pair and, for next-action, the run's scope |
| Halting.ComplianceAgent.HaltMaker | a2a_compliance/channel.py:238-295 | In authenticated mode only an approval dispatches, in bare mode a confirmation; the message is put exactly when dispatched, signed if the agent has a signer |
| HaltRuns.DistinctApprovals | a2a_compliance/channel.py:354-387 | Dispatched halts map one to one into approval (run_id, nonce) pairs, with either store and any earlier contents |
| HaltRuns.OneNextActionPerRun | a2a_compliance/channel.py:372-394 | At most one halt of a run is dispatched by next-action receipts |
| HaltRuns.DispatchedIsBound | a2a_compliance/channel.py:330-352 | A dispatched halt rests on a bound human, neither sender nor maker, and on a digest of this agent, maker and reason |
| HaltRuns.PreliminaryExactly | a2a_compliance/channel.py:297-362 | The checks before the store pass if and only if the agent may halt this maker and the approval verifies, is of this very halt, comes from neither sender nor maker, has a known scope, and names a run and a nonce |
| HaltRuns.HaltMessageSays | a2a_compliance/channel.py:284-295 | The message is a halt from the agent to the maker for the given reason, unsigned where the agent is bare or has no signer |
| HaltRuns.OneDigestOneHalt | a2a_compliance/channel.py:343-344 | Approvals with one body dispatch only one agent, maker and reason |
| HaltRuns.MemoryDispatchesExactly | a2a_compliance/channel.py:330-396 | With the in-memory store a halt is dispatched if and only if its receipt passes, its pair is unspent, for next-action the run's scope is unused, and its nonce is not the mark of a used scope of its run |
| HaltRuns.SessionsUnlimited | a2a_compliance/channel.py:366-384 | A session receipt that passes is dispatched in memory unless its very pair was spent, however many halts its run had |
| HaltRuns.ScopeMarkIsANonce | a2a_compliance/channel.py:364-387 | A session receipt under that nonce is good on the empty store and counts as used after a next-action halt of its run, though its pair was never consumed |
| HaltRuns.DiskDispatchesExactly | a2a_compliance/channel.py:330-396 | On any disk and whatever the names, a halt is dispatched if and only if its receipt passes, its marker is not there and, for next-action, neither is the scope marker |
| HaltRuns.RefusedExactlyOnClash | a2a_compliance/channel.py:364-387 | From an empty disk a halt that should be dispatched is refused if and only if an earlier dispatched halt, under another pair or by its scope marker, left a marker in its way; nothing else is dispatched |
| HaltRuns.StoresAgreeExactly | a2a_compliance/channel.py:364-394 | Both stores dispatch the same halts if and only if no two halts that memory dispatches clash |
| HaltRuns.StoresAgree | a2a_compliance/channel.py:364-394 | On names that can be told apart both stores dispatch the same halts |
| HaltRuns.ReasonsDiffer | a2a_compliance/channel.py:364-384 | Their reasons may differ: a repeated next-action receipt is a used receipt to one store and a used scope to the other |
| HaltRuns.StoresPart | a2a_compliance/channel.py:372-384 | A clash: on a nonce spelled like the sanitised scope marker the stores part |
| HaltRuns.UnsignedHaltRejected | a2a_compliance/channel.py:138-145 | A halt sent without a signer is rejected by every maker in authenticated mode, whose state it leaves alone |
| HaltRuns.DispatchedHaltStops | a2a_compliance/channel.py:238-295 | A dispatched halt, however stamped, stops a running maker on arrival if and only if a key the maker trusts for this agent signed it, it is unexpired and its nonce is unseen; then the maker stays stopped whatever arrives, and otherwise it is left as it was |

## Left out

- Ed25519, SHA-256, JSON Schema validation and the digits of `repr`: foreign code, taken as ideal functions or as given.
- File modes, directory creation, reading and writing of files, crashes inside a write: I/O. A mailbox and a marker directory are sets and maps with atomic steps; the directory scan and cursor write of one poll are one step, and each mailbox has one poller.
- Dates and time zones: times are integers, and `WireCodec` writes them as decimal text.
- Wording and order of error messages.
- Lone surrogates outside `Utf16`: Dafny's characters are Unicode scalar values, and a string with a lone surrogate has no UTF-8 bytes.
- White space between JSON tokens and surrogate-pair escapes in the reader: canonical text has neither.
- Constraint values other than strings and lists of strings, and the members of `cnf` other than `jkt`.
- Context manifests, control requests and revocation objects as wire types, and the policy revocation that only context manifests have.
- The governance block's own digest is a field: `to_dict`, `digest` and the manifest reader of `governance_block.py` are not modelled; its ruling is.
- `wire/obligations.py`, `conformance_kit.py`, `harness.py`, `planes.py`, `grounding.py`, `team.py`, `family.py`: tables, adapters and process control that would add only easy members. Which tools are required and who owns them are arbitrary.
- `to_wire` and `from_wire` of `envelope.py`, and the send side of query, directive, hold and resume: field copying around the modelled `put`.
- The fields of control messages that no handler reads (timestamps, protocol, authority, grounding, enforcement), and fresh message ids.
- Reconciling.Reconcile: does not word `residuals` and `invalid_receipts` as the program does, so its `reason` joins other texts.
- Decoding of base64url text with characters outside the alphabet, which Python skips.
- Pipeline.Provenance: the trust store is fixed through a run, and each executor call is three steps (checked, performed, filed); its finer interleaving is `ExecutorRuns`.
- Liveness, other than `Completion.PipelineCompletes`, `InboxRuns.ProbesBounded`, `HaltRuns.DispatchedHaltStops` and the exact acceptance conditions.
