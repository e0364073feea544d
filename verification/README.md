# Verification of the authority engine

A Dafny 4.11 model of the personal trust fabric: the authority engine, its durable store, the
protected-effect pipeline (execution journal, effect boundary, processing events) and the
meaning-preserving transformations it rests on (canonical JSON, Merkle anchors, the audit chain,
token claims, signature encodings), with proofs of what they promise. `dafny verify dfyconfig.toml`
checks everything.

## How it is built

Code that is expressions and recursion is a function here; code that changes things step by step is
a method on a class or a loop, proved equal to a specification function, and the theorems are about
that function. So for the journal, `Providers.Execute` says what one call does to one key,
`Providers.ExecuteWithJournal` does it on a directory and a rail, and `JournalRuns` reasons about
all runs. The modules `...Meaning`, `...Terms` and `...Receipts` then say what those functions decide
in the fields of the request, the chain or the answer alone. Everything outside the program - clocks,
random ids, providers, queries, privacy decisions, faults and crash points - is a parameter, so a
statement for all parameters covers every behaviour.

| file | content |
|---|---|
| `Basics.dfy`, `OrderedMap.dfy` | options, JavaScript text as UTF-16 code units, insertion-ordered maps |
| `Canonical.dfy`, `CanonicalLaws.dfy`, `JsonReader.dfy` | canonical JSON, its unique decodability, a reader by RFC 8259 that inverts it |
| `Policy.dfy`, `PolicyMeaning.dfy`, `Coverage.dfy` | the predicate language and narrowing; what selectors, patterns and predicates mean; command coverage |
| `Capability.dfy`, `CapabilityLaws.dfy`, `CapabilityMeaning.dfy` | capability chains, the use ledger, revocation; what a check and a redemption mean |
| `AuthorityTerms.dfy`, `AuthorityState.dfy`, `Authority.dfy` | the authority engine: vocabulary, state as a value, class |
| `AuthorityLaws.dfy`, `AuthorityMeaning.dfy`, `Registration.dfy` | decisions and invariants; what a decision means in the fields of the request; what can be registered and caps every payment |
| `AuthoritySnapshots.dfy`, `Restoring.dfy`, `AuthorityRetirement.dfy`, `AuthorityApprovals.dfy` | snapshot and restore, what restores, retired ids, exact approvals |
| `Store.dfy`, `StoreRuns.dfy`, `DoubleSpend.dfy` | the revision compare-and-swap and rollback detection; any number of handles on one file, with writes that fail; a run that spends twice |
| `Journal.dfy`, `Providers.dfy`, `JournalRuns.dfy`, `JournalReceipts.dfy`, `JournalExactness.dfy`, `JournalOverlap.dfy` | execution records, journaled execution, whole runs, where receipts come from, the exact conditions of the effect guarantees, calls that overlap |
| `ProtectedEffects.dfy` | from an accepted capability chain to the terms that are submitted |
| `PaymentReplay.dfy` | reading a payment outcome from the journal |
| `PrivacyEvents.dfy`, `Boundary.dfy`, `BoundaryRun.dfy`, `BoundaryLaws.dfy`, `BoundaryTerms.dfy`, `BoundarySuccess.dfy`, `Recovery.dfy` | processing events, the effect boundary, its guarantees, its conditions written out, what an undisturbed run does, reconciliation |
| `BoundaryHistory.dfy`, `BoundaryEvidence.dfy`, `BoundarySites.dfy`, `BoundaryOverlap.dfy` | histories of one host with restarts, what failure evidence says over them, many hosts on one file, runs that overlap |
| `Anchor.dfy`, `AnchorText.dfy`, `Audit.dfy`, `AuditInterop.dfy` | Merkle anchors over terms and over strings, the hash-chained log, its projection |
| `OAuthAgent.dfy`, `Jws.dfy`, `RateLimit.dfy` | delegated tokens and claims, ES256 encodings, the token bucket |

## Findings

Properties that do not hold without a condition, each with the condition proved:

- A FAILED_FINAL event can stand over a real effect. In histories of runs that do not overlap there
  are exactly two ways: a callback acted without signalling and threw, or an effect was left under a
  PREPARED event and a retry of the same attempt was refused
  (`BoundaryEvidence.FailedFinalOverEffectExactly`, with `FreshAttemptsAreProof` for hosts that do not
  retry; witnesses `BoundaryLaws.UnannouncedActIsMisjudged`, `BoundaryEvidence.RetriedAttemptIsMisjudged`).
  When runs overlap, the second way is any failure recorded by a run that has not acted, beside
  another run of the attempt that acts earlier or later (`BoundaryOverlap.FailedOverEffectExactly`,
  `BoundaryOverlap.FreshAttemptsAreProof`, witness `BoundaryOverlap.RefusedRetryCrosses`).
- "Confirmed absent" must be final. In a run of calls that do not overlap there is at most one effect
  if and only if no call queries absent after an effect and then submits again with effect, and
  SUCCEEDED means exactly one if and only if moreover no success was attested without an effect
  (`JournalExactness.AtMostOneExactly`, `JournalExactness.SucceededExactly`; witness
  `JournalRuns.PrematureAbsentDuplicates`).
- Calls for one key that overlap at their awaits are not serialized: a call takes the SUBMITTING record
  of a waiting one for a crash leftover. Two effects are ruled out if and only if no call acts on
  "absent" while an effect exists or a submission may still land, so a truthful "absent" can still
  duplicate (`JournalOverlap.AtMostOneExactly`, witness `JournalOverlap.TruthfulOverlapDuplicates`); and
  the attempt budget, checked on the record as it was before the query, holds if and only if no call
  resubmits after others have used it up (`JournalOverlap.BudgetExactly`, witness
  `JournalOverlap.OverlapOverruns`).
- A handle whose authority write was lost has adopted the next revision. Updates are lost if and only
  if such a handle saves when exactly one write has been stored since
  (`StoreRuns.NoLostUpdateExactly`). Effects then outnumber the uses on record if and only if the uses
  so forgotten exceed the stored ones that have had no effect (`StoreRuns.EffectsWithinRecordExactly`,
  `BoundarySites.EnteredWithinRecordExactly`), and a grant with a single use can be used for two effects
  (`DoubleSpend.GrantSpentTwice`). A boundary makes such a save when it is run again after its own was
  lost (`BoundarySites.RerunIsStale`).
- An approval minted without a context is not hit by a request without a context: comparing a missing
  context throws, and a throw compares unequal (`AuthorityApprovals.MissingContextMisses`).
- A retired id can be registered again in two ways. As a policy: if and only if it is unregistered
  and its last revocation had an expiry that was later pruned past
  (`AuthorityRetirement.RetiredIdReturnsExactly`, witness `RetirementUndone`). As a grant or approval:
  whenever it is unregistered (`AuthorityRetirement.RetiredIdTakesGrants`,
  `AuthorityRetirement.RetiredIdTakesApprovals`); it is born revoked, and usable under that same
  condition of expiry and pruning only (`AuthorityRetirement.RetiredIdGrantLivesExactly`).
- A Merkle root without the count does not fix the log; it fixes exactly the padded log
  (`Anchor.RootAloneIsNotEnough`, `Anchor.RootFixesPaddedLog`).
- Claims round-trip only for tokens with distinct actors, a future expiry and whitespace-free scopes;
  the descriptor validator demands none of the three (`OAuthAgent.RoundTripExactly`).
- The interop verifier refuses valid logs with fields outside the projection, as its own notes say
  (`AuditInterop.InteropAgrees`).

## Model

| member | source | states |
|---|---|---|
| `CanonicalLaws.CanonicalizeInjective` | src/core/canonical.ts:12-55 | for all plain inputs that canonicalize, the texts are equal exactly when the two inputs stand for the same JSON value, whatever the field order and whichever fields are undefined |
| `CanonicalLaws.CanonicalizePrintsMeaning` | src/core/canonical.ts:12-55 | the filter, sort and join recursion throws exactly for inputs without a JSON value and otherwise prints that value with its keys in order |
| `CanonicalLaws.PrintInjective` | src/core/canonical.ts:12-55 | canonical text has at most one value: strings, numbers, arrays and objects of any depth cannot print alike |
| `CanonicalLaws.PrintSplit` | src/core/canonical.ts:12-55 | unique decodability in context: two printed values followed by legal delimiters can only be equal if the values and the remainders are |
| `CanonicalLaws.QuoteSplit` | src/core/canonical.ts:15-15 | a quoted string ends at its own closing quote and determines its code units, escapes and lone surrogates included |
| `CanonicalLaws.DecimalSplit` | src/core/canonical.ts:16-20 | a printed integer determines its sign and digits up to the first non-digit |
| `JsonReader.CanonicalTextReads` | src/core/canonical.ts:12-55 | a reader written from RFC 8259 alone - escape table, number and value grammar - reads every value back from its canonical text |
| `JsonReader.CanonicalizeReads` | src/core/canonical.ts:12-55 | what canonicalize returns is JSON text for the value its input stands for |
| `JsonReader.TokenForms` | src/core/canonical.ts:15-15 | how each code unit is written: the short escapes of section 7 of RFC 8259 exactly where it has one, four lower-case hexadecimal digits for other controls and lone surrogates, itself otherwise |
| `JsonReader.QuoteIsTokens` | src/core/canonical.ts:15-15 | a string is written unit by unit, a surrogate raw exactly when its partner stands next to it |
| `JsonReader.LessIsCodeUnitOrder` | src/core/canonical.ts:48-51 | keys are ordered by the first code unit in which they differ, a prefix first |
| `Policy.NarrowerSound` | src/core/policy.ts:176-206 | if isPolicyNarrower accepts, every argument object that satisfies the child satisfies the parent, over the whole recursive predicate language |
| `Policy.NarrowerTransitive` | src/core/policy.ts:176-206 | the narrowing relation is transitive |
| `Policy.NarrowerMeans` | src/core/policy.ts:176-206 | acceptance means that each parent predicate is repeated or tightened by one of the child |
| `Policy.SameTextSamePredicate` | src/core/policy.ts:180-186 | predicates with the same canonical text are the same predicate, so comparing texts is comparing predicates |
| `Policy.InclusiveAtStrictBoundWidens` | src/core/policy.ts:187-203 | an inclusive bound at a strict parent bound is refused, and rightly: it would admit the boundary value itself |
| `Policy.ResolveSelector` | src/core/policy.ts:14-54 | the segment and index loops compute one resolution of every selector against every value; PolicyMeaning.ResolvesExactly and FoundIsWritten say which |
| `Policy.FollowIndexes` | src/core/policy.ts:42-52 | the inner loop follows indexes as the resolution does; PolicyMeaning.IndexResolves says where they lead |
| `PolicyMeaning.ResolvesExactly` | src/core/policy.ts:14-54 | a selector written by the grammar resolves to v if and only if its parts lead there: own fields, elements counted from either end, null where an optional part cannot be followed and nothing where a mandatory one cannot |
| `PolicyMeaning.FoundIsWritten` | src/core/policy.ts:14-54 | the converse for arbitrary text: whatever resolves was so written and leads there, up to what follows an optional part that ended at null |
| `PolicyMeaning.NamesResolve` | src/core/policy.ts:14-54 | a dotted path of plain names resolves to v exactly when each name is an own field on the way to v |
| `PolicyMeaning.OptionalResolves` | src/core/policy.ts:38-41 | a missing optional field is null |
| `PolicyMeaning.IndexResolves` | src/core/policy.ts:42-52 | index -k of n elements is element n - k, and nothing beyond either end |
| `PolicyMeaning.PatternReads` | src/core/policy.ts:62-79 | a like pattern written from wildcards and characters is read as these |
| `PolicyMeaning.PatternIsWritten` | src/core/policy.ts:62-79 | every text is such a pattern, written in one way |
| `PolicyMeaning.EvalMeans` | src/core/policy.ts:81-175 | for every predicate, nested ones included: evaluation accepts exactly when the resolved value is equal, different, a number in the stated order, a text that can be cut along the pattern, or its members all or partly accept |
| `PolicyMeaning.PolicyMeans` | src/core/policy.ts:160-175 | a policy accepts exactly what all its predicates accept in that sense |
| `Coverage.CoveredTransitive` | src/core/authority.ts:225-230 | command coverage is transitive, the root command and folder boundaries included |
| `Coverage.FamilyCovers` | src/core/capability.ts:541-561 | a command covered by one in a family is in the family, so family rules cannot be escaped by narrowing |
| `CapabilityLaws.AcceptedBoundsEveryLink` | src/core/capability.ts:280-458 | whenever check or redeem accepts, the demand satisfies every link of the chain - command, policy, window, amount and currency, claims, recipient and terms - although only the leaf is compared with it |
| `CapabilityLaws.IssuedChainPasses` | src/core/capability.ts:131-171 | a chain built only by issue with the keys of its issuers passes every shape, signature, linkage and narrowing gate |
| `CapabilityLaws.LinkBudgetHolds` | src/core/capability.ts:460-511 | over any run of checks, redemptions, revocations and prunes in time order, redemptions of chains that contain a link never exceed its maxUses |
| `CapabilityLaws.CheckChangesNothing` | src/core/capability.ts:180-195 | check never changes the ledger or the revocations |
| `CapabilityLaws.ConsumeCharges` | src/core/capability.ts:460-502 | a redemption takes at least one use from every link of its chain and leaves every other account as it was |
| `CapabilityLaws.SameSubject` | src/core/capability.ts:579-611 | every link of an accepted chain names the same subject |
| `CapabilityMeaning.CheckMeans` | src/core/capability.ts:270-518 | check accepts if and only if every link is well shaped, signed with the key of its issuer, current and unrevoked, the root self-issued, each hop an attenuation in every field, the demand within the leaf field by field, and uses left on every link |
| `CapabilityMeaning.RedeemMeans` | src/core/capability.ts:460-518 | redeem succeeds if and only if the same check does, resource and purpose are named, and the proof is made with the key of the recipient of the leaf over the content id of this leaf |
| `CapabilityMeaning.ImpostorRefused` | src/core/capability.ts:484-500 | without that possession an otherwise good redemption is refused as bad-recipient |
| `CapabilityMeaning.HopMeans` | src/core/capability.ts:579-628 | the narrowing check accepts a child exactly when it is well shaped and takes no more than its parent in any of its fields |
| `CapabilityMeaning.DemandMeans` | src/core/capability.ts:361-458 | the demand checks pass exactly when command, policy, amount, currency, claims, recipient, resource, purpose and digest are those of the leaf or within them |
| `CapabilityMeaning.RefusalsMean` | src/core/capability.ts:280-470 | which fault each refusal reason names, and that earlier gates win |
| `CapabilityMeaning.ResultsMean` | src/core/capability.ts:460-518 | what is reported: the least number of uses left on the chain, the demand, the content id of the leaf |
| `CapabilityMeaning.ConsumesExactly` | src/core/capability.ts:502-511 | a redemption takes from each account one use for every link that draws on it, and nothing from the others |
| `CapabilityMeaning.IssueMeans` | src/core/capability.ts:131-171 | a capability is issued exactly when the payload drawn up from the request is well shaped and self-issued or an attenuation of the parent leaf; it is then signed as it stands |
| `Capability.Capabilities.RunAuthorization` | src/core/capability.ts:270-518 | on objects: the decision of CapabilityMeaning.CheckMeans and RedeemMeans for every chain, demand, time and mode, and the ledger changes only as ConsumesExactly says |
| `Capability.Capabilities.GateChain` | src/core/capability.ts:280-338 | the loops over links report the first shape, signature, linkage or narrowing fault |
| `Capability.Capabilities.GateWindows` | src/core/capability.ts:339-351 | the loop over links reports the first link outside its time window |
| `Capability.Capabilities.GateRevocations` | src/core/capability.ts:352-360 | true exactly when some link is revoked |
| `Capability.Capabilities.CountUses` | src/core/capability.ts:465-470 | refuses exactly when some link has no use left, otherwise reports the least number left |
| `Capability.Capabilities.ConsumeLinks` | src/core/capability.ts:502-502 | the loop charges one use to every link |
| `Capability.MapUseLedger.Consume` | src/core/capability.ts:90-95 | one use is taken and the remaining count returned |
| `Capability.MapUseLedger.Prune` | src/core/capability.ts:96-102 | only entries whose link expired beyond the skew are dropped |
| `Capability.MapRevocationStore.Prune` | src/core/capability.ts:73-78 | only revocations whose link expired beyond the skew are dropped |
| `AuthorityLaws.AllowExactly` | src/core/authority.ts:1250-1402 | the loops allow if and only if some usable exact approval or live matching grant exists and every applicable policy holds; AuthorityMeaning.AllowMeans says the same in the fields of the request |
| `AuthorityLaws.AllowCites` | src/core/authority.ts:1376-1401 | the citation names authority that covers the demand, an approval whenever one does |
| `AuthorityMeaning.AllowMeans` | src/core/authority.ts:1218-1402 | evaluate allows if and only if the request is well asked, some approval names it exactly or some grant speaks of it - principal, actor, command, properties, resource, purpose and every bound over its own fields - unrevoked, within its window and its uses, and every policy about it is met |
| `AuthorityMeaning.CitesFirstApproval` | src/core/authority.ts:1376-1401 | the cited approval is the first registered that names the request and is open |
| `AuthorityMeaning.CitesFirstGrant` | src/core/authority.ts:1376-1401 | a grant is cited only where no approval would do, and it is the first registered one that speaks of the request and is open |
| `AuthorityMeaning.AllowLists` | src/core/authority.ts:1361-1401 | an allow echoes the binding and lists exactly the policies about the request, in order of registration |
| `AuthorityMeaning.ForbiddenNames` | src/core/authority.ts:1361-1374 | a forbidden request names a policy about it that it does not meet |
| `AuthorityMeaning.GrantClosed` | src/core/authority.ts:1279-1301 | which reason a closed grant gives: revoked before out of its window before used up |
| `AuthorityMeaning.ApprovalClosed` | src/core/authority.ts:1307-1331 | the same for approvals |
| `AuthorityMeaning.GrantMeans` | src/core/authority.ts:560-590 | a grant matches exactly when principal, actor, command, properties, resource, purpose and bounds fit the request, and is unblocked exactly when unrevoked, in its window and with uses left |
| `AuthorityMeaning.ApprovalMeans` | src/core/authority.ts:592-630 | an approval is exact for a request precisely when every term agrees and the digest is that of the request |
| `AuthorityMeaning.PolicyMeans` | src/core/authority.ts:632-655 | which requests a policy is about and when it is met |
| `AuthorityMeaning.BoundMeans` | src/core/authority.ts:400-430 | a bound holds exactly when its path leads to a value that is equal, at most or at least its number, one of its list, or a list of texts within its list |
| `AuthorityMeaning.ContextBound` | src/core/authority.ts:400-430 | a bound on a context field is a condition on that very field of the request |
| `AuthorityMeaning.CitedBoundBinds` | src/core/authority.ts:560-590 | under a usable grant each bound - equality, ceiling, floor, list, subset - binds the context field it names |
| `AuthorityMeaning.PayCeiling` | src/core/authority.ts:404-416 | an allow that cites a grant with an amount ceiling is for an amount no greater than the ceiling |
| `AuthorityMeaning.CeilingAdmits` | src/core/authority.ts:404-416 | an amount at most the ceiling is never refused by that bound |
| `Registration.PaymentsAreCapped` | src/core/authority.ts:701-792 | in every state that any run of calls, reloads and adoptions reaches, each grant with a /pay command has one cap and one currency for everything it can be cited for |
| `Registration.AllowedPaymentIsCapped` | src/core/authority.ts:752-792 | so whatever a grant allows under /pay is capped: amount within the cap of the cited grant, in its currency |
| `Registration.GrantTaken` | src/core/authority.ts:701-792 | a grant is registered exactly when no grant, approval or policy has its id and its fields are acceptable, payments bounded; nothing else changes |
| `Registration.ApprovalTaken` | src/core/authority.ts:794-857 | the same for approvals |
| `Registration.PolicyTaken` | src/core/authority.ts:954-993 | the same for policies, whose id must moreover never have been revoked |
| `Registration.MintingMeans` | src/core/authority.ts:866-952 | when createApproval mints, and that the minted approval repeats the parameters, expires after the given time and has one use unless more are asked for |
| `AuthorityLaws.DenyReasons` | src/core/authority.ts:1333-1374 | which situation each refusal reason names: forbidden exactly for covered but narrowed demands, terms for mutated ones, no-authority exactly when nothing matches, the rest when what matches is revoked, expired or used up |
| `AuthorityLaws.PolicyOnlyShrinks` | src/core/authority.ts:1361-1374 | what is allowed with one more policy was allowed without it, and the policy holds of it if it applies |
| `AuthorityLaws.GrantOnlyGrows` | src/core/authority.ts:1269-1306 | adding a grant never turns an allow into a deny |
| `AuthorityLaws.ApprovalOnlyGrows` | src/core/authority.ts:1250-1267 | adding an approval never turns an allow into a deny |
| `AuthorityLaws.ConsumeChargesCited` | src/core/authority.ts:1395-1401 | consuming adds one use to the cited id on allow, to nothing else, and changes nothing but the use counts |
| `AuthorityLaws.RunKeepsValid` | src/core/authority.ts:701-1066 | any sequence of calls, throwing ones included, keeps the whole-machine invariant: ids distinct across kinds, registered items well formed, retired policies gone, uses within limits |
| `AuthorityLaws.ApplyKeepsValid` | src/core/authority.ts:701-1066 | every single call keeps that invariant |
| `AuthoritySnapshots.RestoreIsIdentity` | src/core/authority.ts:1069-1208 | restoring a snapshot of any valid state succeeds and reproduces all six maps in order and the revision |
| `AuthoritySnapshots.ReachableRestores` | src/core/authority.ts:1069-1208 | the same for every state reachable by calls, adoptions and reloads |
| `AuthoritySnapshots.ReachableUsesBounded` | src/core/authority.ts:1301-1331 | in every reachable state the uses of each grant and approval are within its limit |
| `Restoring.RestoreMeans` | src/core/authority.ts:1113-1208 | for any snapshot whatever: it restores if and only if its revision is not negative, no id is used twice in or across kinds, every entry is acceptable to live registration, no policy is retired and no use count is negative; and then as it stands |
| `Restoring.RestoredEntries` | src/core/authority.ts:1163-1190 | of several revocation or use entries under one key the last one counts |
| `AuthorityRetirement.RetiredIdReturnsExactly` | src/core/authority.ts:954-1067 | after any run of calls, reloads and adoptions from a retired state, addPolicy accepts a well-formed policy under the id if and only if the id is unregistered and the run last wrote its revocation with an expiry and later pruned past that expiry and the skew |
| `AuthorityRetirement.RetirementKept` | src/core/authority.ts:954-1067 | through any run that never revokes it with an expiry, a retired id is refused as a policy |
| `AuthorityRetirement.EntryAfter` | src/core/authority.ts:1026-1067 | what the revocation entry of a retired id is after any run |
| `AuthorityRetirement.PerformMarks` | src/core/authority.ts:1026-1067 | how each single call, reload and adoption moves the revocation entry of any id |
| `AuthorityRetirement.RetirementUndone` | src/core/authority.ts:1026-1066 | such a run exists for every retired, unregistered id |
| `AuthorityRetirement.RetiredIdTakesGrants` | src/core/authority.ts:701-792 | the duplicate check of addGrant does not see retirement: a grant under a retired id is accepted exactly when no grant or approval has the id, and is blocked as revoked from birth |
| `AuthorityRetirement.RetiredIdTakesApprovals` | src/core/authority.ts:794-857 | the same for addApproval |
| `AuthorityRetirement.RetiredIdGrantLivesExactly` | src/core/authority.ts:954-1067 | after any run of calls, reloads and adoptions from a retired state, a grant registered under the id is no longer blocked as revoked if and only if the run last wrote its revocation with an expiry and later pruned past that expiry and the skew |
| `AuthorityRetirement.RetiredIdApprovalLivesExactly` | src/core/authority.ts:954-1067 | the same for approvals |
| `AuthorityApprovals.NormalFormDetermines` | src/core/authority.ts:276-295 | two operations have the same normal form exactly when they agree up to absent optionals; array order counts |
| `AuthorityApprovals.DigestDetermines` | src/core/authority.ts:370-376 | so the digest binds the normal form |
| `AuthorityApprovals.MintedHitsExactly` | src/core/authority.ts:866-952 | an approval minted by createApproval is an exact hit for precisely the requests with a context whose normal form equals the minted one |
| `AuthorityApprovals.MissingContextMisses` | src/core/authority.ts:610-626 | a request without a context never hits, although its normal form may equal the minted one |
| `AuthorityEngine.Authority.Evaluate` | src/core/authority.ts:1218-1402 | on the mutable object: the decision of AuthorityMeaning.AllowMeans, and only the cited use count changes |
| `AuthorityEngine.Authority.DecideNow` | src/core/authority.ts:1250-1394 | the approval, grant, usability and policy loops together compute the decision that AuthorityMeaning.AllowMeans spells out |
| `AuthorityEngine.Authority.CollectApprovals` | src/core/authority.ts:1250-1267 | the loop collects exact hits and remembers the last mismatch and near miss |
| `AuthorityEngine.Authority.CollectGrants` | src/core/authority.ts:1269-1306 | the loop collects the grants that match (AuthorityMeaning.GrantMeans) and are open, and remembers the last block and near miss |
| `AuthorityEngine.Authority.CollectUsable` | src/core/authority.ts:1307-1331 | the loop keeps the usable hits and the last block |
| `AuthorityEngine.Authority.ApplyPolicies` | src/core/authority.ts:1361-1374 | the loops find the policies about the request (AuthorityMeaning.PolicyMeans) and the first one that fails |
| `AuthorityEngine.Authority.CreateApproval` | src/core/authority.ts:866-952 | mints the approval with the digest of the normalized operation, or throws and changes nothing |
| `AuthorityEngine.Authority.AddGrant` | src/core/authority.ts:701-792 | registers a well-formed grant under a fresh id, or throws and changes nothing |
| `AuthorityEngine.Authority.AddApproval` | src/core/authority.ts:794-857 | registers a well-formed approval under a fresh id, or throws and changes nothing |
| `AuthorityEngine.Authority.AddPolicy` | src/core/authority.ts:954-993 | registers a well-formed policy under an id that is neither taken nor retired |
| `AuthorityEngine.Authority.Revoke` | src/core/authority.ts:1026-1045 | revokes an id that is not a live policy and reports the capabilities derived from it |
| `AuthorityEngine.Authority.DisablePolicy` | src/core/authority.ts:1047-1059 | removes a policy and retires its id |
| `AuthorityEngine.Authority.Prune` | src/core/authority.ts:1061-1067 | drops exactly the revocations whose expiry has passed beyond the skew |
| `AuthorityEngine.Authority.NoteIssued` | src/core/authority.ts:1011-1024 | adds one derived capability to the set of its authority |
| `AuthorityEngine.Authority.AdoptRevision` | src/core/authority.ts:1096-1106 | stamps a non-negative revision and the lineage |
| `AuthorityEngine.Authority.TakeSnapshot` | src/core/authority.ts:1069-1081 | the snapshot lists every map in insertion order |
| `AuthorityEngine.RestoreAuthority` | src/core/authority.ts:1113-1208 | builds a fresh instance from a snapshot, or throws exactly when the specification does |
| `AuthorityStore.StoreFile.SaveAuthority` | src/store/files.ts:116-156 | compare-and-swap on objects: refusal changes nothing, success stamps file and instance together, a failed write leaves the stamp on the instance |
| `AuthorityStore.StoreFile.LoadAuthority` | src/store/files.ts:160-170 | a fresh instance equal to the stored state exactly when the file restores and no audit line was recorded under a later revision; otherwise a throw |
| `AuthorityStore.CheckFreshness` | src/store/files.ts:202-249 | the loops over audit lines and their two revision fields decide exactly whether some line was recorded under a later revision |
| `AuthorityStore.FreshMeans` | src/store/files.ts:202-249 | the audit history allows a revision exactly when no line of it that parses carries a later one, be it under authorityRev or under authority in stateRevisions |
| `AuthorityStore.ReuseAfterFailedWriteLosesUpdate` | src/store/files.ts:131-156 | the smallest witness of a lost update: an instance kept after a lost write overwrites the commit made since |
| `StoreRuns.NoLostUpdateExactly` | src/store/files.ts:79-156 | over every interleaving of creates, loads, calls, saves, lost writes, writes that threw after storing and discards, handles kept or not: the file contains every stored write in order if and only if no handle saved after a lost write with exactly one write stored since |
| `StoreRuns.PassesExactly` | src/store/files.ts:79-114 | in every reachable world, which handles get past the revision rule: the newest ones, and those kept after a lost write when exactly one write was stored since |
| `StoreRuns.StoreIsReplay` | src/store/files.ts:79-156 | in every run the file is the replay of the writes its history contains, stamped by the number of stored writes, and it restores |
| `StoreRuns.StoreIsSerial` | src/store/files.ts:79-156 | without such a save the file is what one client would have left by making the committed calls in commit order |
| `StoreRuns.DisciplineSuffices` | src/store/files.ts:116-156 | hosts that recreate, reload or discard a handle whose write was lost never make such a save |
| `StoreRuns.DisciplinedHostsAreSafe` | src/store/files.ts:116-156 | so for them no update is lost and effects never outnumber durable uses |
| `StoreRuns.EffectsWithinDurableUses` | src/store/files.ts:116-156 | effects run after a successful save never outnumber durable uses, and durable uses never exceed maxUses, write faults included, while no such save occurs |
| `StoreRuns.DurableUsesGrow` | src/store/files.ts:79-156 | no later commit takes a durable use back while no such save occurs |
| `StoreRuns.RunAccounts` | src/store/files.ts:79-156 | the account of every run, whatever fails and whoever keeps a handle: stored uses of an id are the uses on record plus the ones stale saves have forgotten |
| `StoreRuns.EffectsWithinRecordExactly` | src/store/files.ts:79-156 | for every run: effects under an id stay within the uses on record if and only if the forgotten uses are covered by stored uses that have had no effect |
| `StoreRuns.ForgottenIsLoss` | src/store/files.ts:79-156 | the file never records a use that was not stored, and none is forgotten while no save is stale |
| `StoreRuns.StaleSaveForgets` | src/store/files.ts:131-156 | what any stale save of any run costs: the file then continues what the handle had seen and every stored use outside it is forgotten; for the first one these are the uses of the commits it overwrote |
| `StoreRuns.StaleSaveDoubleSpends` | src/store/files.ts:131-156 | exactly when a stale save of any run leaves more effects than uses on record |
| `DoubleSpend.GrantSpentTwice` | src/store/files.ts:116-156 | a run that spends twice, for every grant and every request it serves: two effects, also under a grant with a single use |
| `DoubleSpend.SingleUseServes` | src/core/authority.ts:701-792 | such grants and requests exist |
| `StoreRuns.LoadsExactly` | src/store/files.ts:160-249 | in every run a stored file loads if and only if no audit line was recorded under a revision later than the newest |
| `StoreRuns.RollbackIsRefused` | src/store/files.ts:191-249 | an earlier file of any run is refused once the audit history holds a line recorded under the newest revision |
| `JournalRuns.AtMostOneEffect` | src/adapters/providers.ts:784-1017 | in every run of calls, crashes, recoveries and aborts for one key, given honest answers: at most one external effect; SUCCEEDED means exactly one; PREPARED, AUTHORIZED and FAILED_FINAL mean none and no submission |
| `JournalRuns.BudgetHolds` | src/store/execution.ts:69-78 | whatever the answers: effects <= submissions <= attempts <= maxAttempts, and at most 2 * maxAttempts + 2 transitions although the map has a cycle |
| `JournalRuns.TerminalIsFinal` | src/store/execution.ts:308-357 | nothing later in a run moves a terminal record or causes a submission |
| `Journal.PathsMean` | src/store/execution.ts:449-460 | along the transition map every record is cleared and submitted before anything else can be known of it, stops where it is final, and fails for good only before a submission or straight out of one |
| `Journal.EdgesMean` | src/store/execution.ts:69-78 | the ten listed transitions and no others |
| `Journal.CreationMeans` | src/store/execution.ts:232-270 | what a new execution must bring, and that the directory takes at most five thousand records of distinct ids |
| `Journal.MovedMeans` | src/store/execution.ts:332-357 | a transition keeps who and what the record is for, stamps state and time, counts submissions and replaces exactly the fields it is given |
| `Journal.NotesMean` | src/store/execution.ts:420-483 | what an abort and a restart write |
| `JournalRuns.OneReceipt` | src/adapters/providers.ts:798-800 | every returning call of a run returns one and the same receipt |
| `JournalRuns.ReplayReturnsIt` | src/adapters/providers.ts:798-801 | after one call has returned, every admitted call returns that receipt, submits nothing and changes nothing |
| `JournalRuns.ReturnedIsDurable` | src/adapters/providers.ts:1003-1017 | a receipt is returned only once the record that holds it is durable and terminal |
| `JournalReceipts.ReceiptHasSource` | src/adapters/providers.ts:784-1017 | for every run: the transaction of a returned receipt is the attested reference that the provider or the query gave to the call that made the record SUCCEEDED, its id and time are those of that call, and its capability, recipient, resource, purpose and digest those of the call that created the record |
| `JournalReceipts.SuccessWrites` | src/adapters/providers.ts:893-902 | the call that makes a record SUCCEEDED writes the reference it was answered with, under its own nonce and time |
| `JournalReceipts.SuccessHasSource` | src/adapters/providers.ts:1003-1017 | over any run, which call that was |
| `JournalReceipts.FirstReceipt` | src/adapters/providers.ts:945-1017 | the receipt of a first, uninterrupted call, field by field |
| `JournalReceipts.FreshAttemptMeans` | src/adapters/providers.ts:826-1017 | an uninterrupted call on a record that was never submitted submits once; what state, note and outcome each answer of the provider leaves |
| `JournalReceipts.OpenOutcomeMeans` | src/adapters/providers.ts:843-1017 | on a record with an open outcome the query decides: what each of its answers leaves, and that only absent within the budget submits again |
| `JournalReceipts.FinalRecordMeans` | src/adapters/providers.ts:798-825 | a final record is only reported |
| `JournalReceipts.AdmittedMeans` | src/adapters/providers.ts:751-797 | a call is admitted exactly for a consumed, proven redemption of this capability whose every term, arguments included, is the requested one |
| `JournalReceipts.UnclearedDoesNothing` | src/adapters/providers.ts:751-797 | any other call fails and leaves record and rail as they were |
| `JournalReceipts.KeyMeans` | src/store/execution.ts:139-148 | the idempotency key spells out digest and scope, and malformed ones throw |
| `JournalReceipts.CreatedMeans` | src/store/execution.ts:215-298 | the record a first call leaves, field by field, with a budget of three unless one is given |
| `JournalRuns.PrematureAbsentDuplicates` | src/adapters/providers.ts:921-945 | a witness: for all pairs of first calls on a key in which an effect lands but the query then says absent, the retry makes a second effect |
| `JournalExactness.AtMostOneExactly` | src/adapters/providers.ts:784-1017 | for every run, with no assumption about answers: at most one effect if and only if no call queried absent after an effect and, with budget and time left, submitted again with effect |
| `JournalExactness.SucceededExactly` | src/adapters/providers.ts:784-1017 | a SUCCEEDED record stands for exactly one effect if and only if the run has neither such a retry nor a success attested without an effect |
| `JournalExactness.EmptySuccessExactly` | src/adapters/providers.ts:843-1017 | SUCCEEDED without any effect occurs if and only if an attested success was recorded while none had landed |
| `JournalExactness.SecondEffectIsFalseRetry` | src/adapters/providers.ts:921-945 | once an effect exists, exactly which calls add another |
| `JournalExactness.StepDoes` | src/adapters/providers.ts:784-1017 | for every record, call and cut-off: exactly when a call adds an effect and exactly when it leaves SUCCEEDED |
| `JournalExactness.UnsubmittedMeansNone` | src/store/execution.ts:461-483 | PREPARED, AUTHORIZED and FAILED_FINAL mean no effect and no submission, whatever was answered |
| `JournalExactness.HonestRunsMeetBoth` | src/adapters/providers.ts:784-1017 | honest answers imply both conditions |
| `JournalOverlap.AtMostOneExactly` | src/adapters/providers.ts:784-1017 | calls of one key that overlap at their awaits, in any number: two effects can never come to exist if and only if no call acts on an absent answer while an effect exists or a submission may still land |
| `JournalOverlap.PrematureCanDouble` | src/adapters/providers.ts:921-945 | whenever a call does, the submissions then outstanding can make two effects |
| `JournalOverlap.TruthfulOverlapDuplicates` | src/adapters/providers.ts:826-945 | truthful answers are not enough: a second call takes the SUBMITTING record of a waiting one for a leftover, is told that no effect exists yet, and submits again |
| `JournalOverlap.BudgetExactly` | src/adapters/providers.ts:921-945 | the budget is checked on the record as it was before the query: attempts stay within maxAttempts over every overlap if and only if no call resubmits after others have used the budget up |
| `JournalOverlap.OverlapOverruns` | src/adapters/providers.ts:826-945 | such an overlap exists for every call with a budget of two |
| `JournalOverlap.SomeCallRetries` | src/adapters/providers.ts:784-797 | calls of the kind these two overlaps are made of exist |
| `JournalOverlap.OverlapSound` | src/store/execution.ts:314-357 | what every overlap keeps: effects and outstanding submissions never outnumber submissions, nor these the recorded attempts; nothing was submitted under a PREPARED, AUTHORIZED or FAILED_FINAL record |
| `JournalOverlap.TerminalStays` | src/store/execution.ts:314-357 | no call in flight moves a terminal record or submits under it |
| `JournalOverlap.AloneIsExecute` | src/adapters/providers.ts:784-1017 | a call that nobody interrupts is exactly the call in one step, for every answer and cut-off |
| `JournalRuns.KeysDistinct` | src/store/execution.ts:139-148 | distinct pairs of terms digest and scope have distinct idempotency keys |
| `JournalRuns.RecordHasCreator` | src/store/execution.ts:215-298 | every record goes back to one admitted call of the run, with its terms, key and budget |
| `JournalRuns.RecordMatchesKey` | src/store/execution.ts:139-148 | the record found under a key was written for the digest the key was derived from |
| `JournalRuns.RecoveredFinds` | src/store/execution.ts:420-439 | restart recovery, seen from one key: SUBMITTING becomes SUBMITTED_UNKNOWN, everything else stays |
| `JournalRuns.CaughtOnce` | src/store/execution.ts:420-439 | restart recovery makes one transition for each key it catches and none for any other |
| `JournalRuns.Host.Run` | src/adapters/providers.ts:751-1018 | on a directory with many keys: a call is the specified run of its own key and leaves every other key as it was |
| `JournalRuns.Host.Restart` | src/store/execution.ts:420-439 | recovery is the specified step of every key at once |
| `JournalRuns.Host.Abort` | src/store/execution.ts:461-483 | an abort is the specified step of one key |
| `Journal.JournalStore.ScanExecutions` | src/store/execution.ts:364-384 | one pass finds the first record with the key and counts all records |
| `Journal.JournalStore.CreateExecution` | src/store/execution.ts:215-298 | returns the existing record of a key or adds one PREPARED record; keys and ids stay unique |
| `Journal.JournalStore.TransitionExecution` | src/store/execution.ts:314-357 | writes exactly the patched record when the transition is listed, otherwise throws and changes nothing |
| `Journal.JournalStore.RecoverUnsettled` | src/store/execution.ts:420-439 | the loop marks every caught record unknown and returns every unknown one, in order |
| `Journal.JournalStore.AbortExecution` | src/store/execution.ts:461-483 | only PREPARED and AUTHORIZED records can be aborted |
| `Journal.RewriteFinds` | src/store/execution.ts:314-357 | rewriting one record changes what its own key finds and nothing else |
| `Providers.ExecuteWithJournal` | src/adapters/providers.ts:751-1018 | on objects, for every answer and every cut-off: record, effects, submissions, transitions and outcome are the specified ones; where a receipt comes from is JournalReceipts.ReceiptHasSource |
| `Providers.SubmitOnce` | src/adapters/providers.ts:945-1017 | SUBMITTING is durable before the provider is called, and its answer is persisted as JournalReceipts.SuccessWrites says |
| `Providers.SettleUnknown` | src/adapters/providers.ts:843-942 | an unknown outcome is settled by the query, retried only when absent and within budget; a settled success carries the reference the query gave |
| `Providers.ResumeLive` | src/adapters/providers.ts:826-944 | a live record is resumed from its durable state |
| `PaymentReplay.InspectReportsTheReceipt` | src/privacy/payment-replay.ts:82-206 | after any call has returned, the journal is reported as succeeded exactly for the executed terms when they are payment terms, and then with that very receipt |
| `PaymentReplay.InspectTellsEffects` | src/privacy/payment-replay.ts:171-206 | what each answer proves: none, failed_final and unsubmitted mean no effect, succeeded means exactly one |
| `PaymentReplay.OwnTermsNeverMismatch` | src/privacy/payment-replay.ts:193-206 | a run of the expected terms is never reported as a mismatch |
| `PaymentReplay.SameTermsAreEqual` | src/privacy/payment-replay.ts:71-95 | field-by-field and canonical comparison amounts to equality of the terms |
| `PaymentReplay.InspectMeans` | src/privacy/payment-replay.ts:145-206 | whatever the journal holds: the record under the payment key of the expected digest, which answer it gives, and the payment receipt field by field |
| `ProtectedEffects.EffectWithinEveryLink` | src/adapters/providers.ts:784-1017 | end to end: whatever journaled execution submits under the result of an authorization lies within every bound of every link of the chain, and its presenter had proved possession of the recipient key |
| `ProtectedEffects.CheckNeverExecutes` | src/adapters/providers.ts:214-228 | the result of a check executes nothing and leaves no trace in the journal |
| `ProtectedEffects.AdmittedTermsAreVerified` | src/adapters/providers.ts:235-265 | an admitted call submits the very demand that was verified, with no field added or changed |
| `ProtectedEffects.RedeemedExecutes` | src/adapters/providers.ts:751-1018 | and conversely: what an accepted chain redeems is executed - the first uninterrupted call for that demand, answered well, returns a receipt for recipient, resource, purpose and digest of the leaf |
| `BoundaryLaws.EffectNeedsEveryStep` | src/hostkit/boundary.ts:347-418 | for every fault at every step: if anything was submitted or acted, the gates of BoundaryTerms.GatesMean had passed, the event was PREPARED, one more use was durably stored and the fence had passed |
| `BoundaryTerms.EffectMeans` | src/hostkit/boundary.ts:347-418 | for every configuration, callback path included: if a run began an effect, the context was the declared one, a redemption was for this digest, action, resource and purpose, the processing context named this principal, actor, action, resource and purpose, the authority allowed the request each of the four times it was asked, privacy permitted the same basis three times, the event of the attempt was PREPARED and one use of the cited id stored |
| `BoundaryTerms.GatesMean` | src/hostkit/boundary.ts:323-385 | the gates pass if and only if these conditions on configuration and answers hold |
| `BoundaryTerms.ForeignRedemptionStops` | src/hostkit/boundary.ts:230-239 | a redemption for other terms stops a run before any effect on either path, and the dry run |
| `BoundaryTerms.DryRunMeans` | src/hostkit/boundary.ts:323-345 | the dry run approves exactly under the same conditions and reports the digest of the bound operation |
| `BoundaryTerms.DryStagesMean` | src/hostkit/boundary.ts:323-345 | which answer the dry run gives for every configuration and every answer of authority and privacy |
| `BoundaryTerms.StagesMean` | src/hostkit/boundary.ts:347-385 | which gate refuses: the first whose condition fails |
| `BoundaryTerms.ReceiptMeans` | src/hostkit/boundary.ts:448-472 | what every returned receipt says on action, authority charged, capability and event |
| `BoundaryTerms.CallbackReceiptMeans` | src/hostkit/boundary.ts:293-320 | the receipt of a callback: its own fields, and those of the operation where it gave none |
| `BoundarySuccess.CallbackRunMeans` | src/hostkit/boundary.ts:347-472 | an undisturbed callback run, from the world it finds to the world it leaves: one use charged and stored, the event SUCCEEDED with the reference of the receipt, the effects of the callback, and its receipt |
| `BoundarySuccess.ProviderRunMeans` | src/hostkit/boundary.ts:347-472 | an undisturbed provider run: exactly one submission and one effect, and a receipt in which the reference of the rail, the operation and the authority charged agree |
| `BoundarySuccess.AdmitMeans` | src/hostkit/boundary.ts:347-417 | steps 1 to 7 when all is clear: one event is opened, one use of the cited id charged and stored, and nothing else moves |
| `BoundarySuccess.CallMeans` | src/hostkit/boundary.ts:259-291 | the provider is asked for the operation itself: digest, action, resource, purpose and context |
| `BoundarySuccess.ConfigMeans` | src/hostkit/boundary.ts:164-209 | which configurations are accepted |
| `BoundaryLaws.FailedFinalMeansNoEffect` | src/hostkit/boundary.ts:419-446 | one run under an event that did not exist: FAILED_FINAL means that this run began no effect, except exactly when a callback acted, never signalled and threw; retries of the attempt are BoundaryEvidence.FailedFinalOverEffectExactly |
| `BoundaryLaws.FailedFinalIsProof` | src/hostkit/boundary.ts:419-446 | for such a run there is no exception on the provider path or when the callback signals before acting |
| `BoundaryLaws.UnannouncedActIsMisjudged` | src/hostkit/boundary.ts:419-446 | the exception is real for every such callback |
| `BoundaryLaws.RefusedMeansNoEffect` | src/hostkit/boundary.ts:347-446 | an error reported as preceding the effect did precede it, with the same exact exception |
| `BoundaryLaws.ReceiptMeansSucceeded` | src/hostkit/boundary.ts:448-472 | a returned receipt is backed by a SUCCEEDED event with its reference and time |
| `BoundaryLaws.RefusalIsRecorded` | src/hostkit/boundary.ts:387-446 | once the event is prepared, every refusal leaves it FAILED_FINAL unless the bookkeeping itself fails |
| `BoundaryLaws.CarryClassifies` | src/hostkit/boundary.ts:419-472 | how outcome and evidence go together: an unknown outcome is never recorded as FAILED_FINAL, nor as SUCCEEDED unless the write failed after storing; other events are untouched |
| `BoundaryLaws.ReceiptIsTheJournals` | src/hostkit/boundary.ts:293-320 | on the provider path the receipt repeats the durable journal record field by field, under the authority that was charged |
| `BoundaryLaws.SettledEvidenceStopsTheRun` | src/privacy/runtime.ts:237-249 | evidence of the same attempt that is no longer PREPARED stops the run and stays as it is |
| `BoundaryLaws.ProviderRunsAuthorizedTerms` | src/hostkit/boundary.ts:230-239 | what the provider is asked to do equals the authorized operation term by term |
| `BoundaryLaws.CheckAgreesWithRun` | src/hostkit/boundary.ts:323-345 | the dry run approves exactly what gets past the gates of a run |
| `BoundaryLaws.JournalSignals` | src/adapters/providers.ts:945-947 | the provider path signals the start of an effect before it submits anything |
| `BoundaryEvidence.FailedFinalOverEffectExactly` | src/hostkit/boundary.ts:347-472 | over any history of runs, faults, crashes and restarts of a host, for an attempt without evidence at its start: its event is FAILED_FINAL although an effect was begun under it if and only if a callback acted unannounced and threw, or an effect was left under a PREPARED event and a later run of the same attempt was refused and recorded |
| `BoundaryEvidence.FreshAttemptsAreProof` | src/hostkit/boundary.ts:136-142 | for hosts that never run a PREPARED attempt again only the first cause remains, and none when callbacks signal first or the provider path is used |
| `BoundaryEvidence.RetriedAttemptIsMisjudged` | src/privacy/runtime.ts:237-249 | the second cause is real, on the provider path too: whenever an effect was left under a PREPARED event and a rerun of the attempt reaches the fence and is refused there |
| `BoundaryEvidence.RunFiles` | src/hostkit/boundary.ts:347-472 | a run writes only to the event of its own attempt, only while that is PREPARED, and writes FAILED_FINAL only if it is refused |
| `BoundaryEvidence.StepKeepsSettled` | src/privacy/runtime.ts:237-249 | no run or restart changes evidence that is no longer PREPARED or removes any |
| `BoundaryOverlap.FailedOverEffectExactly` | src/hostkit/boundary.ts:347-472 | runs that overlap at the awaited effect, in any number and of any attempts: an event is FAILED_FINAL although an effect was made under it if and only if a run that had acted recorded its own failure, or a run that had not acted recorded a failure while another run of the attempt had acted or acted afterwards |
| `BoundaryOverlap.MisjudgesIs` | src/hostkit/boundary.ts:419-446 | a run that has acted and records its own failure never signalled, and threw |
| `BoundaryOverlap.FreshAttemptsAreProof` | src/hostkit/boundary.ts:136-142 | however runs overlap, for hosts that never start an attempt twice only the unannounced effect remains, and nothing when effects are announced |
| `BoundaryOverlap.RefusedRetryCrosses` | src/hostkit/boundary.ts:411-446 | the second cause is real: while a run that has signalled and acted awaits its effect, another run of the attempt is refused at the fence |
| `BoundaryOverlap.FailedAdmitsNone` | src/privacy/runtime.ts:237-249 | once an event is FAILED_FINAL no further run of the attempt is admitted, so a later act is by a run that was in flight already |
| `BoundaryOverlap.StepRespects` | src/store/privacy-events.ts:275-310 | no start, move, end or restart changes final evidence, or evidence of another attempt |
| `BoundaryOverlap.AloneIsRunOnce` | src/hostkit/boundary.ts:347-472 | a callback run that nobody interrupts is exactly the run in one step |
| `BoundaryHistory.EffectsWithinUseLimits` | src/hostkit/boundary.ts:387-409 | over any history of runs, faults, crashes and restarts, effect steps entered under an id never outnumber the uses durably recorded for it, nor its limit |
| `BoundarySites.EffectsOfAllHosts` | src/hostkit/boundary.ts:387-417 | any number of boundaries and other clients on one file, with faults and crashes anywhere: unless one saved again after a lost write with exactly one write stored since, the effect steps all of them entered under an id never outnumber the uses the file records, nor the limit |
| `BoundarySites.EnteredWithinRecordExactly` | src/hostkit/boundary.ts:387-417 | for every history of many hosts: entered effects stay within the uses the file records if and only if the forgotten uses are covered by stored uses that entered no effect |
| `BoundarySites.ReloadingHostsAreSafe` | src/hostkit/boundary.ts:387-417 | hosts that reload or discard an instance after a lost write meet that condition |
| `BoundarySites.SitesAreStoreRuns` | src/hostkit/boundary.ts:387-417 | every history of such hosts is a run of calls, saves and effects on the file, with the same file, instances and entered effects |
| `BoundarySites.RunLeaves` | src/hostkit/boundary.ts:347-417 | exactly what a run does to instance and file, and under which id it enters the effect step |
| `BoundarySites.LostRunGoesAdrift` | src/hostkit/boundary.ts:387-409 | a run whose write was lost leaves its instance wearing the next revision |
| `BoundarySites.RerunIsStale` | src/hostkit/boundary.ts:387-409 | run again after exactly one other stored write, that instance overwrites it |
| `BoundaryHistory.BoundarySubmitsOnce` | src/hostkit/boundary.ts:259-291 | however often it is run, crashed and restarted, a provider-backed boundary submits its terms at most once, whatever the provider answers |
| `BoundaryRun.EffectBoundary.RunNow` | src/hostkit/boundary.ts:347-473 | on objects: one run changes authority, file, events, journal and rail exactly as specified; BoundaryTerms.EffectMeans and StagesMean say when it goes how far |
| `BoundaryRun.EffectBoundary.CheckNow` | src/hostkit/boundary.ts:323-345 | the dry run changes nothing and decides as BoundaryTerms.DryRunMeans says |
| `BoundaryRun.EffectBoundary.AdmitNow` | src/hostkit/boundary.ts:347-417 | steps 1 to 7 on objects, with the gates of BoundaryTerms.GatesMean |
| `BoundaryRun.EffectBoundary.PerformNow` | src/hostkit/boundary.ts:259-291 | step 8 on objects: the journaled call, or the callback with its signals and effects |
| `BoundaryRun.EffectBoundary.CarryNow` | src/hostkit/boundary.ts:419-472 | steps 8 and 9 on objects |
| `PrivacyEvents.EventStore.Prepare` | src/store/privacy-events.ts:176-240 | preparing is idempotent: an existing event is returned as it is; a malformed attempt reference throws and stores nothing |
| `PrivacyEvents.EventStore.Transition` | src/store/privacy-events.ts:275-310 | SUCCEEDED and FAILED_FINAL are never rewritten; OUTCOME_UNKNOWN may be resolved |
| `PrivacyEvents.FinalEvidenceStays` | src/store/privacy-events.ts:275-310 | no preparing or finalizing changes terminal evidence |
| `Recovery.ReconcileSettles` | src/privacy/runtime.ts:259-391 | whatever fails, an attempt reported as finalized has exactly one event, of this identity, in the proved state; terminal evidence is never rewritten |
| `Recovery.SettledForGood` | src/privacy/runtime.ts:371-391 | a settled attempt can be reconciled to the same effect again and never to the opposite one |
| `Recovery.OneEventMeans` | src/privacy/runtime.ts:283-391 | with one event of the attempt: finalized exactly when it was filed for this principal, actor, subject, controller, action, resource and purpose and is open or already in the proved state; what is then written; conflicting exactly when it is final the other way |
| `Recovery.NoEventMeans` | src/privacy/runtime.ts:266-370 | with none: one is written only on request, for the digest of this very operation, while privacy permits it, and what it then says |
| `Recovery.AmbiguousMeans` | src/privacy/runtime.ts:283-294 | with two, nothing is decided and nothing changes |
| `Recovery.ReconcileAttemptEvent` | src/privacy/runtime.ts:259-391 | on the event store: the specified reconciliation, malformed attempt references and failing writes included |
| `Anchor.RootAndCountFixTheLog` | src/store/anchor.ts:26-39 | equal root and equal count force equal entry lists, odd-node duplication notwithstanding |
| `Anchor.RootFixesPaddedLog` | src/store/anchor.ts:26-39 | exactly what a root alone fixes: two non-empty logs have the same root if and only if they pad to the same full tree of entries |
| `Anchor.RootAloneIsNotEnough` | src/store/anchor.ts:26-39 | the count is needed: repeating the last entry of any odd log of three or more keeps the root |
| `Anchor.AcceptedProofIsInclusion` | src/store/anchor.ts:91-98 | over digest terms: whatever path is presented, if it is accepted against the root of a log and its leaf is the leaf hash of x, then x is in the log |
| `AnchorText.AcceptedTextIsInclusion` | src/store/anchor.ts:91-98 | over strings, for any hash of fixed output length and any sibling strings: an accepted proof whose leaf is the leaf hash of x means that x is in the log, or log and proof hash two different texts to the same digest |
| `AnchorText.TextRootAndCountFixTheLog` | src/store/anchor.ts:26-39 | equal root strings and counts mean equal logs, or building the two trees hashes a collision |
| `AnchorText.RenderDetermines` | src/store/anchor.ts:12-22 | two trees with the same root string are the same tree, or building them hashes a collision, although child digests are joined without a separator |
| `AnchorText.RootTextMeans` | src/store/anchor.ts:16-39 | the root string: empty for no entry, the tagged hash of a single one, and for two halves of a power of two the tagged hash of their root strings, left before right |
| `AnchorText.RootOfPaddedText` | src/store/anchor.ts:26-39 | any other log has the root string of its padded log |
| `AnchorText.ProducedTextVerifies` | src/store/anchor.ts:53-98 | the proof produced for any entry, as strings, is accepted against the root string |
| `AnchorText.VerifyInclusionText` | src/store/anchor.ts:91-98 | the loop over string siblings decides acceptance |
| `Anchor.ProducedProofVerifies` | src/store/anchor.ts:53-89 | every index of every log has a proof that verifies, of exactly ceil(log2 n) steps |
| `Anchor.ConsistencyIsExtension` | src/store/anchor.ts:116-144 | against checkpoints of two real logs, acceptance means exactly that the presented entries are those logs and the later extends the earlier |
| `Anchor.MerkleRoot` | src/store/anchor.ts:26-39 | the level loop computes the root of the tree |
| `Anchor.InclusionProof` | src/store/anchor.ts:53-89 | the loop collects the sibling path; out-of-range indexes throw |
| `Anchor.VerifyInclusion` | src/store/anchor.ts:91-98 | the fold decides acceptance |
| `Anchor.VerifyConsistency` | src/store/anchor.ts:116-144 | the prefix loop and the two recomputed roots decide consistency |
| `Audit.After` | src/core/execute.ts:268-391 | every log built by any sequence of append and ingest, malformed calls included, is well shaped and passes verifyChain |
| `Audit.LastHashFixesTheLog` | src/core/execute.ts:207-217 | with an injective hash, two valid non-empty logs with the same last hash are equal |
| `Audit.CanonicalHashInjective` | src/core/execute.ts:207-217 | a collision-free hash of canonical text is injective on values |
| `Audit.ReingestRebuilds` | src/core/execute.ts:332-420 | ingesting the lines of an exported log into an empty one rebuilds it, unknown fields included |
| `Audit.ReadBackRebuilds` | src/core/execute.ts:332-420 | the same with a reader by RFC 8259, so without any assumption on the parser |
| `Audit.AppendMeans` | src/core/execute.ts:268-329 | append refuses exactly the unrecordable events; otherwise the new entry holds the event field by field, its number and the previous hash, nothing else, and the hash of the canonical text of its other fields |
| `Audit.JsonlLines` | src/core/execute.ts:415-420 | the exported text splits at line breaks into exactly the printed entries |
| `Audit.LineFeeds` | src/core/execute.ts:415-420 | the export has one line feed for each entry and ends with it, and no carriage return |
| `Audit.HashesDiffer` | src/core/execute.ts:394-413 | no entry of a valid log shares its hash with a later linked entry |
| `Audit.AuditLog.Append` | src/core/execute.ts:268-329 | appends the chained entry or throws on a malformed revision; the log stays valid |
| `Audit.AuditLog.Ingest` | src/core/execute.ts:332-391 | accepts a line exactly when it is a shaped entry that continues the chain |
| `Audit.AuditLog.VerifyChain` | src/core/execute.ts:394-413 | the loop decides exactly whether the log is a chain |
| `Audit.AuditLog.ToJsonl` | src/core/execute.ts:415-420 | one printed entry a line |
| `AuditInterop.InteropAgrees` | src/adapters/audit-interop.ts:64-181 | for logs with only projected fields the interop verifier agrees with verifyChain; for valid logs it accepts exactly when no entry has any other field |
| `AuditInterop.AcceptsChains` | src/adapters/audit-interop.ts:138-181 | the verifier accepts well-shaped records exactly when the entries they stand for form a chain; the jti check never decides |
| `AuditInterop.ProjectRebuilds` | src/adapters/audit-interop.ts:64-111 | a projection loses nothing exactly when the entry has only projected fields |
| `AuditInterop.FirstFaultMeans` | src/adapters/audit-interop.ts:138-181 | the verifier accepts exactly when every record is filled in, numbered, chained, unrepeated and rehashes; otherwise it names the first record that is not and the first of these that fails |
| `AuditInterop.ProjectMeans` | src/adapters/audit-interop.ts:64-111 | which entries project, and field by field what the record then says |
| `AuditInterop.VerifyInteropChain` | src/adapters/audit-interop.ts:138-181 | the loop reports the first fault, or none |
| `OAuthAgent.DerivedAttenuates` | src/adapters/oauth-agent.ts:260-303 | a token derived by any line of delegations keeps subject and audience of every ancestor, has scope within and expiry no later than each, and distinct actors of length at most 10 |
| `OAuthAgent.DelegateMeans` | src/adapters/oauth-agent.ts:260-303 | a child token is made exactly from a live parent with room below it, for a new actor and scopes the parent has, and what it then says |
| `OAuthAgent.MintMeans` | src/adapters/oauth-agent.ts:305-342 | when a root token is minted and what it says |
| `OAuthAgent.ClaimsMean` | src/adapters/oauth-agent.ts:349-368 | the claims by their registered names, the actor nesting of section 4.1 of RFC 8693 and the spaced scope string |
| `OAuthAgent.ScopesMean` | src/adapters/oauth-agent.ts:418-437 | a scope string is read exactly when it spells scopes without blanks, one space between neighbours |
| `OAuthAgent.RoundTripExactly` | src/adapters/oauth-agent.ts:349-466 | for every well-shaped token: fromJwtClaims(toJwtClaims(t)) = t if and only if its actors are distinct, it expires after issue and its scopes are whitespace-free |
| `OAuthAgent.DerivedRoundTrips` | src/adapters/oauth-agent.ts:349-466 | every derived token round-trips once the scopes of its root are whitespace-free |
| `OAuthAgent.ReadThenWrite` | src/adapters/oauth-agent.ts:413-466 | reading claims, writing and reading again gives the same token and the same scope string |
| `OAuthAgent.ReadTokenIsWellMade` | src/adapters/oauth-agent.ts:413-466 | whatever fromJwtClaims returns is well shaped, with distinct actors and a future expiry |
| `OAuthAgent.NestSubjects` | src/adapters/oauth-agent.ts:349-357 | the nested actor object lists the actors outermost last and is read back root first |
| `OAuthAgent.SplitJoin` | src/adapters/oauth-agent.ts:360-360 | splitting joined scopes at spaces gives the scopes back |
| `OAuthAgent.ToJwtClaims` | src/adapters/oauth-agent.ts:349-368 | the loop builds the nested claims, or throws on a malformed descriptor |
| `OAuthAgent.ParseNestedAct` | src/adapters/oauth-agent.ts:376-402 | the loop returns the root-first chain exactly when every level is well formed, no actor repeats and the depth is within 10 |
| `Jws.RawRoundTrips` | src/adapters/jws.ts:31-143 | esDerToRaw(rawToDer(raw)) = raw for every 64-byte signature |
| `Jws.ContentsMinimal` | src/adapters/jws.ts:37-50 | each INTEGER is the minimal non-negative encoding of the same number |
| `Jws.DerShape` | src/adapters/jws.ts:51-57 | the encoding is one short-form sequence of two INTEGERs whose content length never exceeds 70 |
| `Jws.IntegerRead` | src/adapters/jws.ts:134-142 | an encoded INTEGER is read back at any offset and the reader stops right after it |
| `Jws.SequenceRead` | src/adapters/jws.ts:124-143 | any sequence of two INTEGERs is read, with short or long length octets and whatever follows: each without one leading zero, filled up to 32 octets |
| `Jws.TagsAreNeeded` | src/adapters/jws.ts:124-143 | nothing is read without the tag of the sequence and of the INTEGER after its length octets |
| `Jws.MinimalBytes` | src/adapters/jws.ts:37-43 | the loop strips leading zeros as specified |
| `Jws.RawToDer` | src/adapters/jws.ts:31-58 | encodes exactly the 64-byte inputs |
| `Jws.EsDerToRaw` | src/adapters/jws.ts:124-143 | reads every buffer as specified, truncated and over-long ones included |
| `RateLimit.WindowBound` | src/pdp-server.ts:393-416 | over any stretch of T milliseconds of one key, after any history, at most rpm + T * rpm / 60000 requests are admitted |
| `RateLimit.MinuteBound` | src/pdp-server.ts:393-416 | the same in whole numbers: beyond the bucket size, sixty thousand milliseconds buy rpm requests and no more |
| `RateLimit.PacedIsAdmitted` | src/pdp-server.ts:393-416 | a caller that keeps a distance of a minute over rpm between its requests is never refused |
| `RateLimit.WaitingIsEnough` | src/pdp-server.ts:407-415 | a denied caller that waits retryAfterSec with no other use of its key is admitted next, and one whole second less is not enough |
| `RateLimit.Paid` | src/pdp-server.ts:404-409 | every admission is paid for by tokens held at the first request or by time since then |
| `RateLimit.Limiter.CheckRate` | src/pdp-server.ts:393-416 | on the bucket map: the verdict and the new bucket of this key are the specified ones, other keys are untouched |

## Left out

Weaker than the source, or true under a stated assumption:

- JournalRuns.AtMostOneEffect: calls do not overlap (JournalOverlap is about those that do); one writer per journal directory, as the source's own note on createExecution states; records on disk are well formed, so corruption errors are not modelled.
- Journal.JournalStore.CreateExecution: two processes racing between lookup and exclusive create are not modelled.
- Providers.SubmitOnce: a SUBMITTING write that stores and then throws is signalled here and not in the source; a SUCCEEDED write that stores and then throws has no outcome of its own.
- Providers.ExecuteWithJournal: provider and query run to completion or are cut off; what they do is their answer, and error messages are not modelled.
- StoreRuns.NoLostUpdateExactly: reading the revision and renaming the file are one step, so two processes between read and rename, and deletion and re-creation of the file, are not modelled.
- JournalReceipts.KeyMeans: SHA-256 digests are symbolic - a tag and the preimage in hexadecimal - so that different inputs have different digests; the format check takes them for the 64 digits they stand for.
- AuthorityLaws.DenyReasons: reasons and ids, not the text of the detail.
- AuthorityEngine.Authority.AddGrant: stored grants are values, so later mutation of a caller's object is not modelled; meta fields are left out.
- CanonicalLaws.CanonicalizeInjective: numbers are integers printed in decimal, so integers of 1e21 and above (which print with an exponent) and non-integer numbers are left out, as are byte arrays (which print like an object with the one key `/`), symbol keys and exotic prototypes.
- CanonicalLaws.DecimalSplit: the same restriction to numbers printed in decimal.
- Policy.NarrowerSound: `like` patterns are matched by a wildcard matcher rather than by the regular expression engine; bounds are integers.
- CapabilityLaws.AcceptedBoundsEveryLink: signatures and content ids are symbolic, so forging and colliding are excluded rather than improbable.
- Anchor.AcceptedProofIsInclusion: digests are free constructor terms; AnchorText.AcceptedTextIsInclusion is the statement about strings.
- AnchorText.AcceptedTextIsInclusion: the hash is a function of the string, UTF-8 encoding included in it.
- Audit.LastHashFixesTheLog: the hash is an injective parameter; JSON.parse is a parameter; Audit.ReadBackRebuilds puts a reader by RFC 8259 in its place.
- AuditInterop.VerifyInteropChain: records have the declared types, so the shape check is about empty fields only.
- BoundaryLaws.EffectNeedsEveryStep: a privacy decision is an arbitrary answer at each of the three times it is asked; the profile rules behind it are left out.
- PrivacyEvents.EventStore.Prepare: an event is identified by its stable fields, standing for their digest; the subject check and the capacity bound are throws of unstated cause; encryption and the attempt index are left out.
- BoundaryLaws.FailedFinalMeansNoEffect: about one run; the statement over histories with retries is BoundaryEvidence.FailedFinalOverEffectExactly.
- BoundaryEvidence.FailedFinalOverEffectExactly: runs do not overlap; BoundaryOverlap.FailedOverEffectExactly is about those that do.
- BoundaryOverlap.FailedOverEffectExactly: the awaited part of a provider run is a sequence of signals and effects; its journal is the subject of JournalOverlap.
- BoundaryHistory.EffectsWithinUseLimits: one host on the file; BoundarySites.EffectsOfAllHosts is about many.
- BoundarySites.EffectsOfAllHosts: journal, events and callbacks of each run are arbitrary; the awaited part of a run touches neither instance nor file, so overlap adds nothing here.
- BoundaryRun.EffectBoundary.RunNow: the authority is saved by the file store, not by a persistence function of the host's own.
- Recovery.ReconcileAttemptEvent: the live authority is read as a value.
- RateLimit.WindowBound: arithmetic is exact, not floating point, and time does not run backwards.

Not modelled:

- real I/O, HTTP, command line, MCP and server wiring, configuration parsing, metrics;
- cryptography, key stores, sealed snapshots and the vault;
- the sqlite backend, backups, agent and recipient registries, proposals and challenges;
- protocol adapters (x402, AP2, OID4VP, P3P, A2A, WebMCP, AuthZEN) and their field validators;
- rendering and parsing of approval decisions, the persona view, conformance scenarios;
- executeProtectedAction and the non-journaled orchestrator, disclosure envelopes.
