# A verified model of the oxide-auth authorization server

oxide-auth is an OAuth 2.0 authorization server library (RFC 6749, RFC 6750, RFC 7636). This project
models the parts of it that have to work together to be safe, and proves what they promise:

* **The stores.** `TokenMap` and `AuthMap` keep tokens and codes in Redis hashes and change them with
  single commands, without transactions. `Stores.dfy` gives each call as a program of commands,
  `Interleaving.dfy` lets any number of processes run them, one command per step, each of which may be
  refused, may lose its reply, or may be the last its caller lives to see. `TokenMaps.dfy` and `Redis.dfy`
  hold the same calls as methods on objects, proved to be these programs.
* **The state machines** for authorization, access token, refresh and resource requests, as objects with
  `advance`, with facts about input words of any length; and **the loops around them**, proved equal to
  straight-line procedures over the stores.
* **The whole server.** `Flows.dfy` runs any number of consents, redemptions, refreshes and other users of
  the stores at once. `Provenance.dfy` and `RefreshFamily.dfy` are about all its runs, and `Liveness.dfy` shows
  runs in which a consent is redeemed.
* **Scopes, parameters, signed tokens, proof keys** and the addon list that carries proof keys from one
  request to the other.

## Reading guide

| theme | files |
|---|---|
| store commands, interleavings | `Stores`, `Interleaving`, `Redis`, `TokenMaps` |
| invariants at every command boundary | `SelfKeys`, `TokenIndex`, `CodeLedger`, `Journal`, `Overwrites`, `Vanishing` |
| whole server | `Flows`, `Backing`, `BackingSteps`, `Provenance`, `Families`, `FamilySteps`, `RefreshFamily`, `RefreshOrderSteps`, `RefreshOrder`, `Lineage`, `OrderlyServer`, `Reaching`, `RedemptionPhases`, `RefreshPhases`, `Liveness` |
| whole calls, reference stores | `FailureFree`, `FaultyCalls`, `TwoMaps`, `UsageCounter` |
| counters, taggers, freshness | `Counters`, `Taggers`, `Freshness`, `Signatures` |
| runs that destroy | `Races`, `Overtaking`, `OverlappingRefreshes` |
| machines | `AuthorizationMachine`, `AccessTokenMachine`, `RefreshMachine`, `ResourceMachine` |
| executors | `AuthorizationFlow`, `AccessTokenFlow`, `RefreshFlow`, `ResourceFlow`, `CodeFlow` |
| values | `Scopes`, `Grants`, `Registrar`, `Pkce`, `Query`, `Assertions`, `TokenErrors`, `Prelude` |

Which results need tags that never repeat: the index and lock results of `TokenIndex`, "at most once" and
"the authorized grant" in `CodeLedger`, everything in `Provenance`, `RefreshFamily`, `RefreshOrder` and
`Lineage`, and `Vanishing`. They take it as `FreshRun` (for the stores) or `FreshActions` (for the server). The
self-key invariant, the conservation of codes, the journal, `Overwrites`, the executors and the chain of
sequential refreshes need no such assumption; what the executors need of the store is that entries sit under
their own keys, which `SelfKeys` proves of every run. `Freshness` proves that runs of the stores whose draws are
orderly, and in particular sequential runs without failures, meet `FreshRun` with injective taggers and new
import keys; `OrderlyServer` does the same for `FreshActions`. `Races` shows runs that do not.

Time is in nanoseconds; the clock, the tagger and all faults are inputs of each step. SHA-256, HMAC, base64,
MessagePack, url parsing, the password policy and other addons are arbitrary functions; where encoding and
decoding must be inverse, or must keep inputs apart, that is a named hypothesis (`Assertions.Lawful`,
`Assertions.Distinguishing`). Overflow of `next_usage - 1` is a panic, as with checked arithmetic.

## Where the code and its documentation differ

The model follows the code.

* `Refresh` loses its state on an idle input while co-authenticating or issuing
  (`RefreshMachine.IdleRepeatsOutputIff`).
* `Resource` does not repeat an error on a further input (`ResourceMachine.AfterTheEnd`, `ErrorNotRepeated`).
* `Resource` compares the grant's scope below the resource's, the documentation the other way round. The
  executor results use the coded comparison; `ResourceMachine.ComparisonsAgreeIff` says when both agree.
* An HSET answering 0 has overwritten the entry although the method reports failure
  (`Overwrites.CallKeepsEntriesIff`, `Overwrites.OverwrittenGrantIsHandedOut`).
* `refresh` removes whatever its access tag leads to, where the in-memory version asserts that it is the same
  token (`Overwrites.RefreshRemovesAnotherIff`).
* "The stored scope only shrinks" holds for refreshes served one after the other
  (`RefreshFlow.ChainsOnlyNarrow`). When flows interleave it can grow back (`Overtaking.ScopeComesBack`), but
  only if another refresh came between a flow's lookup and its write
  (`RefreshOrder.RefreshNarrowsTheLatestUnlessOvertaken`), and never beyond the scope first issued
  (`RefreshFamily.TokensNarrowTheFirstIssued`).
* The usage counter does not by itself make tags unique: overlapping calls, and calls after an abort, can read
  the same value. `Counters.UsageValuesDistinctIff` says exactly when they do not.
* A failed refresh does not always leave the store as it was: without a usage counter, without its access
  entry, or with a tag in use, it loses the refresh token (`RefreshFlow.ErrorsIff`).
* Two refreshes of one token that overlap can destroy it although no command fails and no tag repeats
  (`OverlappingRefreshes.EntryCanBeDestroyed`); `Vanishing.EntryVanishesIff` says exactly when this happens.

## Model

| member | source | states |
|---|---|---|
| `TokenIndex.TokenHashesStayLinked` | oxide-auth/src/primitives/issuer.rs:275-528 | in every state of every interleaved, faulty run with non-repeating tags, each refresh entry is the very token stored under its access tag, and no two live access entries name one refresh tag |
| `TokenIndex.RefreshTagIsALock` | oxide-auth/src/primitives/issuer.rs:389-509 | for each refresh tag, callers between deleting and re-inserting it, plus one if it is present, never exceed one |
| `TokenIndex.StepKeepsIndex` | oxide-auth/src/primitives/issuer.rs:275-528 | every start, command, fault or crash keeps the index invariant, also when a refresher acts on a stale read |
| `TokenIndex.RunKeepsIndex` | oxide-auth/src/primitives/issuer.rs:275-528 | the same over runs of any length |
| `SelfKeys.RunKeepsSelfKeys` | oxide-auth/src/primitives/issuer.rs:165-196 | entries sit under the keys they name after any run, with faults, crashes, imports and colliding tags |
| `SelfKeys.AssertionsNeverFail` | oxide-auth/src/primitives/issuer.rs:418-459 | the two assertions and the unwrap in `refresh` fail in no reachable state |
| `CodeLedger.CodesAreConserved` | oxide-auth/src/primitives/authorizer.rs:98-191 | grants handed out by `extract(k)`, plus removals with a lost reply, plus one if `k` is present, equal the HSETs that created `k`, in every run |
| `CodeLedger.CodeRedeemedAtMostOnce` | oxide-auth/src/primitives/authorizer.rs:156-191 | with non-repeating tags at most one `extract` call ever returns a grant for a code (section 4.1.2 of RFC 6749) |
| `CodeLedger.RedeemedGrantWasAuthorized` | oxide-auth/src/primitives/authorizer.rs:98-191 | and that grant is the one an earlier `authorize` stored under the code |
| `Journal.StepKeepsJournal` | oxide-auth/src/primitives/issuer.rs:275-528 | each call mints, creates or removes at most once, and only from states that still may |
| `TokenMaps.TokenMap.Issue` | oxide-auth/src/primitives/issuer.rs:275-372 | store and answer are those of the command program under the same faults; self-keys are kept |
| `TokenMaps.TokenMap.Refresh` | oxide-auth/src/primitives/issuer.rs:374-528 | the same for `refresh`, whose assertions hold |
| `TokenMaps.TokenMap.RecoverToken` | oxide-auth/src/primitives/issuer.rs:530-553 | the grant under the access tag; a failed or empty lookup is "no grant", a missing connection an error |
| `TokenMaps.TokenMap.RecoverRefresh` | oxide-auth/src/primitives/issuer.rs:555-579 | the same on the refresh hash |
| `TokenMaps.AuthMap.Authorize` | oxide-auth/src/primitives/authorizer.rs:99-154 | store and answer are those of the command program; it panics exactly when it reads a counter of 2^64 - 1 |
| `TokenMaps.AuthMap.Extract` | oxide-auth/src/primitives/authorizer.rs:156-191 | store and answer are those of the command program; only the code hash may change |
| `Provenance.TokensTraceToConsent` | oxide-auth/src/code_grant/accesstoken.rs:323-494 | in every run of the server, a token minted by a redemption goes back to an earlier consent with the same owner, client, redirect url and scope, whose code this redemption took; its client passed the check and the extensions accepted (section 4.1.3 of RFC 6749) |
| `Provenance.NoConsentServesTwice` | oxide-auth/src/code_grant/accesstoken.rs:379-494 | two minted tokens that trace to one consent are the same log entry |
| `Provenance.OneRedemptionPerConsent` | oxide-auth/src/code_grant/accesstoken.rs:379-400 | a consent is traced to by one redemption only |
| `Provenance.TokensWereVerified` | oxide-auth/src/code_grant/extensions/pkce.rs:74-185 | with one required pkce addon and its identifier unshared, the verifier presented matches the challenge of the request that was consented to (section 4.6 of RFC 7636) |
| `Provenance.ActionKeepsServer` | oxide-auth/src/code_grant/authorization.rs:466-486 | every step of the server keeps the provenance invariant |
| `RefreshFamily.TokensNarrowTheFirstIssued` | oxide-auth/src/code_grant/refresh.rs:430-497 | every token minted with a refresh tag has owner, client, redirect url and extensions of the first one, and no more scope; that first one was not minted by a refresh (section 6 of RFC 6749) |
| `RefreshFamily.RefreshedTokensWereAuthorized` | oxide-auth/src/code_grant/refresh.rs:331-460 | a refreshed token narrows the grant its own flow recovered, and the request presented a passphrase accepted for that very client, or none for a public client |
| `RefreshFamily.ActionKeepsFamily` | oxide-auth/src/primitives/issuer.rs:374-528 | every step of the server keeps the family invariant |
| `Liveness.ConsentCanBeRedeemed` | oxide-auth/src/code_grant/accesstoken.rs:415-494 | for every consent and every token request that answers for it there is a run of the server that creates the code, takes it and mints the token |
| `Counters.UsageValuesDistinctIff` | oxide-auth/src/primitives/issuer.rs:290-368 | over every interleaved, faulty run from a counter at 0 with at most 2^64 draws, the usage values presented to the tagger, answered or refused, are pairwise distinct if and only if every drawing GET yields the counter and its call writes it back before the next drawing GET; the same for the answered values alone, and for the token and the code counter |
| `Counters.AnsweredAreAsked` | oxide-auth/src/primitives/issuer.rs:299-303 | what the tagger answers is what it is asked with, but perhaps for the last value, and a refusal ends the call |
| `Counters.OrderlyRunsDrawDistinctValues` | oxide-auth/src/primitives/authorizer.rs:111-151 | the if part from any initial counter value, across the wrap |
| `Races.OverlappingCallsRepeat` | oxide-auth/src/primitives/issuer.rs:290-303 | two calls that overlap are given the same usage values |
| `Races.AbortedCallRepeats` | oxide-auth/src/primitives/issuer.rs:290-368 | so is the next call of a single process whose call before died between reading and writing back |
| `Races.UnansweredGetStartsOver` | oxide-auth/src/primitives/issuer.rs:290-296 | an `issue` whose GET is not answered starts over at 0 |
| `Races.DisorderNeedNotRepeatElsewhere` | oxide-auth/src/primitives/issuer.rs:290-303 | why the only-if part needs a counter that began at 0 |
| `Races.InterleavedIssuesCollide` | oxide-auth/src/primitives/issuer.rs:275-372 | two overlapping issues present 0 and 1 twice; if the tagger repeats itself the hashes agree only for equal grants |
| `Freshness.OrderlyRunsAreFresh` | oxide-auth/src/primitives/issuer.rs:97-102 | with injective taggers and imported keys that are new, runs of the stores whose draws are orderly meet the assumption that tags never repeat, however calls overlap and fail otherwise |
| `Freshness.SequentialRunsAreFresh` | oxide-auth/src/primitives/issuer.rs:275-528 | so does every sequential run without failures |
| `Freshness.SequentialHashesStayLinked` | oxide-auth/src/primitives/issuer.rs:275-528 | there the token hashes stay linked without any assumption on freshness |
| `Freshness.OrderlyStoresStaySound` | oxide-auth/src/primitives/authorizer.rs:98-191 | under orderly draws the hashes stay linked and no code is redeemed twice, whatever else interleaves or fails |
| `OrderlyServer.ServerRunIsAStoreRun` | oxide-auth/src/primitives/issuer.rs:275-528 | every run of the server is a run of the stores, and tags never repeat in the one exactly if they do not in the other |
| `OrderlyServer.OrderlyActionsAreFresh` | oxide-auth/src/primitives/issuer.rs:97-102 | with injective taggers, server runs whose draws are orderly meet the assumption of all results about the whole server |
| `OrderlyServer.OrderlyTokensTraceToConsent` | oxide-auth/src/code_grant/accesstoken.rs:323-494 | so there every token of a redemption goes back to a consent that served no other token, without an assumption on tags |
| `OrderlyServer.OrderlyTokensDescendFromConsent` | oxide-auth/src/code_grant/refresh.rs:430-497 | and every token with a refresh tag descends from a consent or began outside the code flow |
| `Overwrites.StepReplacesIff` | oxide-auth/src/primitives/issuer.rs:332-351 | in every state of every run, a step replaces the value of an entry exactly if it is an HSET that runs on a present key with another value, and its call then reports failure |
| `Overwrites.CallKeepsEntriesIff` | oxide-auth/src/primitives/issuer.rs:275-528 | any call on its own, on any store, under any faults and wherever it ends, leaves every entry that is not its own to remove as it was if and only if none of its HSETs so runs and it is no refresh that removes another token; the call's own are its refresh entry and the very same token in the access hash, or its code |
| `Overwrites.RefreshAccessHash` | oxide-auth/src/primitives/issuer.rs:374-528 | the access hash after `refresh`, for every store, all faults and wherever it ends |
| `Overwrites.RefreshRemovesAnotherIff` | oxide-auth/src/primitives/issuer.rs:437-463 | where the access tag of the entry leads to another token, `refresh` costs that one exactly if it gets as far as its HDEL, unless it happens to write the very same one back |
| `Overwrites.AuthorizeOverwritesIff` | oxide-auth/src/primitives/authorizer.rs:99-154 | `authorize` damages an entry exactly if its HSET runs and its code is in use for another grant |
| `Overwrites.IssueOverwritesIff` | oxide-auth/src/primitives/issuer.rs:275-372 | `issue` does exactly if its access tag is in use for another token, or else its refresh tag is |
| `Overwrites.RefreshOverwritesIff` | oxide-auth/src/primitives/issuer.rs:374-528 | on any store, `refresh` does exactly if it gets as far as its HSET and the new access tag is in use by another token than the one it replaces |
| `Overwrites.ImportOverwritesIff` | oxide-auth/src/primitives/issuer.rs:165-196 | `import_grant` does exactly if its key is in use for another token |
| `Overwrites.UnusedTagsKeepEntries` | oxide-auth/src/primitives/issuer.rs:275-528 | while the tags drawn are not in the hashes, no call damages an entry, however it fails, but for a `refresh` whose access tag leads to another token, and that one exactly if it gets as far as its HDEL |
| `Overwrites.OverwrittenGrantIsHandedOut` | oxide-auth/src/primitives/authorizer.rs:130-135 | an `authorize` that draws a code in use reports failure, and `extract` of that code then hands out the failed call's grant |
| `Vanishing.EntryVanishesIff` | oxide-auth/src/primitives/issuer.rs:374-528 | a refresh entry, in any state of any run with non-repeating tags, and any further interleaved run without failures: once nobody is between deleting and re-inserting it, it is gone if and only if some refresh deleted another token than it had read, or found no usage counter |
| `Vanishing.VanishedForGood` | oxide-auth/src/primitives/issuer.rs:374-528 | and then it never comes back, however the run goes on and whatever fails |
| `Vanishing.StepCosts` | oxide-auth/src/primitives/issuer.rs:389-467 | those two commands are the only ones that cost an entry while nothing fails |
| `OverlappingRefreshes.EntryCanBeDestroyed` | oxide-auth/src/primitives/issuer.rs:389-467 | in every state of every run with non-repeating tags, every refresh entry can be destroyed by two refreshes that overlap, without failures; the one that succeeded loses its refresh token |
| `RefreshOrder.RefreshNarrowsTheLatestUnlessOvertaken` | oxide-auth/src/code_grant/refresh.rs:331-497 | in every run of the server, a token minted by a refresh flow narrows the latest earlier token of its refresh tag, unless another refresh flow minted one between this flow's lookup and its own token |
| `Overtaking.ScopeComesBack` | oxide-auth/src/code_grant/refresh.rs:331-391 | for every grant of a public client and every smaller scope, a run of the server with two refresh flows in which the stored scope shrinks to it and then comes back |
| `Lineage.TokensDescendFromConsent` | oxide-auth/src/code_grant/refresh.rs:430-497 | in every run of the server, every token with a refresh tag, however often refreshed, goes back through the first token of its tag to one earlier consent with the same owner, client and redirect url and no less scope, or to an issue outside the code flow |
| `TwoMaps.RedisRefinesTwoMaps` | oxide-auth/src/primitives/issuer.rs:274-579 | every sequential failure-free run answers like two in-memory maps sharing one token cell per pair, tagger failures included |
| `TwoMaps.CallMirrors` | oxide-auth/src/primitives/issuer.rs:274-579 | each call keeps the two stores in correspondence, and the cell is exclusively owned where the source says so |
| `UsageCounter.TagsNeverRepeat` | oxide-auth/src/primitives/issuer.rs:290-303 | sequential calls that draw at most 2^64 tags never present a usage value twice, across the wrap; an injective tagger never repeats a tag |
| `UsageCounter.InjectiveTaggerRefines` | oxide-auth/src/primitives/issuer.rs:422-432 | so with an injective tagger the two-map refinement needs no freshness assumption |
| `UsageCounter.AuthMapRefinesCodeBook` | oxide-auth/src/primitives/authorizer.rs:98-191 | sequential `AuthMap` calls answer like one in-memory code map, all codes differ, and an exhausted counter panics |
| `FailureFree.RefreshAnswers` | oxide-auth/src/primitives/issuer.rs:374-528 | without failing commands, on every store whose entries sit under their own keys and whatever tag is drawn: refresh does nothing without an entry; it replaces both entries and advances the counter if there is a counter, an access entry and no other use of the tag; else it fails and the refresh entry is lost |
| `FailureFree.IssueAnswers` | oxide-auth/src/primitives/issuer.rs:275-372 | without failing commands and whatever tags are drawn, issue stores one token under both tags and advances the counter by two if they are unused, and else fails having overwritten what was under the used one |
| `FaultyCalls.LookupUnderFaults` | oxide-auth/src/primitives/issuer.rs:530-579 | a lookup that is not answered is "no grant", like one that finds nothing |
| `FaultyCalls.ExtractUnderFaults` | oxide-auth/src/primitives/authorizer.rs:156-191 | store and answer of `extract` for all fates of its two commands |
| `FaultyCalls.AuthorizeUnderFaults` | oxide-auth/src/primitives/authorizer.rs:99-154 | the same for the three commands of `authorize` |
| `FaultyCalls.IssueUnderFaults` | oxide-auth/src/primitives/issuer.rs:275-372 | the same for the four commands of `issue`: which entries are written, in which order, up to the first command that is not answered or finds its tag in use |
| `FaultyCalls.RefreshUnderFaults` | oxide-auth/src/primitives/issuer.rs:374-528 | the same for the eight commands of `refresh`: what has been deleted is not put back |
| `RefreshMachine.FinishedIffSuccessWord` | oxide-auth/src/code_grant/refresh.rs:240-311 | exactly the characterised words end with a bearer token, which carries the validated scope |
| `RefreshMachine.AfterTheEnd` | oxide-auth/src/code_grant/refresh.rs:240-311 | after an error or the token every output is an error, and an error never changes |
| `RefreshMachine.IdleRepeatsOutputIff` | oxide-auth/src/code_grant/refresh.rs:273-292 | an idle input repeats the output in every state but two |
| `RefreshMachine.ValidateNarrows` | oxide-auth/src/code_grant/refresh.rs:462-497 | a validated grant is within the recovered one |
| `RefreshMachine.Refresh.Advance` | oxide-auth/src/code_grant/refresh.rs:240-311 | the object's new state and output are those of the transition function |
| `AccessTokenMachine.FinishedIffSuccessWord` | oxide-auth/src/code_grant/accesstoken.rs:272-321 | idle inputs aside, exactly authenticate, matching live grant, extensions, token ends with a bearer token |
| `AccessTokenMachine.AfterTheEnd` | oxide-auth/src/code_grant/accesstoken.rs:272-321 | after an error or the token every output is an error, and an error never changes |
| `AccessTokenMachine.AccessToken.Advance` | oxide-auth/src/code_grant/accesstoken.rs:272-321 | the object's new state and output are those of the transition function |
| `AccessTokenMachine.CollectCredentials` | oxide-auth/src/code_grant/accesstoken.rs:323-350 | the client counts only if named in exactly one way, header or body; its passphrase is that of the header, or the secret in the body where the endpoint allows it |
| `AccessTokenMachine.CredentialsMeaning` | oxide-auth/src/code_grant/accesstoken.rs:323-360 | the registrar accepts the collected credentials exactly if the request names its client once and shows its accepted passphrase, or none for a public client |
| `AuthorizationMachine.FinishedIffSuccessMoves` | oxide-auth/src/code_grant/authorization.rs:179-285 | idle inputs aside, exactly bind, extend, negotiate of an acceptable request ends pending |
| `AuthorizationMachine.AfterAnError` | oxide-auth/src/code_grant/authorization.rs:179-285 | an error is repeated unchanged |
| `AuthorizationMachine.AfterFinished` | oxide-auth/src/code_grant/authorization.rs:179-285 | a pending consent is repeated while idle and any other input makes it an error for good |
| `AuthorizationMachine.NegotiatesRequestedScope` | oxide-auth/src/code_grant/authorization.rs:179-262 | the registrar is asked about the scope of the request |
| `AuthorizationMachine.Authorization.Advance` | oxide-auth/src/code_grant/authorization.rs:179-285 | the object's new fields and output are those of the transition function |
| `ResourceMachine.FinishedIffSuccessWord` | oxide-auth/src/code_grant/resource.rs:185-215 | exactly a valid bearer request, scopes, and a live grant they allow finish, with that grant |
| `ResourceMachine.AfterTheEnd` | oxide-auth/src/code_grant/resource.rs:185-215 | after the end only errors come; an error is repeated exactly under idle input or if it is the generic one |
| `ResourceMachine.ErrorNotRepeated` | oxide-auth/src/code_grant/resource.rs:185-202 | a run whose error is replaced by another |
| `ResourceMachine.ComparisonsAgreeIff` | oxide-auth/src/code_grant/resource.rs:317-320 | for every list of resource scopes, the coded and the documented comparison agree exactly if one scope equals the grant's, or one is larger and another smaller, or none is comparable |
| `ResourceFlow.ComparisonIsReversed` | oxide-auth/src/code_grant/resource.rs:290-335 | a token with strictly more scope than asked is refused with `insufficient_scope`, and one with strictly less is let in |
| `ResourceMachine.Resource.Advance` | oxide-auth/src/code_grant/resource.rs:185-215 | the object's new state and output are those of the transition function |
| `AuthorizationFlow.AuthorizationCode` | oxide-auth/src/code_grant/authorization.rs:318-430 | the loop ends, asks each primitive at most once and in order, never panics with a fixed registry, and equals the straight-line procedure |
| `AuthorizationFlow.RedirectsOnlyToRegisteredUrls` | oxide-auth/src/code_grant/authorization.rs:231-486 | errors after binding, denials and code redirects go to urls registered for the named client; before binding nothing is redirected (section 4.1.2.1 of RFC 6749) |
| `AuthorizationFlow.PendingIff` | oxide-auth/src/code_grant/authorization.rs:287-430 | exactly which requests reach the owner |
| `AuthorizationFlow.AnswersIff` | oxide-auth/src/code_grant/authorization.rs:231-430 | exactly which request is ignored or gets `unsupported_response_type`, `invalid_scope` or `invalid_request`, with its own state and at its own redirect url, and otherwise what the owner is asked about |
| `AuthorizationFlow.PendingHonoursRequestedUrl` | oxide-auth/src/primitives/registrar.rs:615-640 | a requested redirect url is the one used |
| `AccessTokenFlow.Execute` | oxide-auth/src/code_grant/accesstoken.rs:415-494 | the loop ends, asks each primitive at most once with the issuer last, and equals the straight-line procedure on the stores, whether codes and tokens live on one server or two |
| `AccessTokenFlow.ReferenceIsSound` | oxide-auth/src/code_grant/accesstoken.rs:323-494 | under any faults the token hashes change only for a client that deserves it on the code's grant, the code is gone then, and a returned pair is the stored one |
| `AccessTokenFlow.ServedIffDeserved` | oxide-auth/src/code_grant/accesstoken.rs:323-494 | without failing commands a token is returned exactly to such clients while the tags drawn are not in use, with those tags and the expiry of the duration set or of the grant |
| `AccessTokenFlow.ErrorsIff` | oxide-auth/src/code_grant/accesstoken.rs:323-400 | without failing commands, exactly which requests get each of `invalid_request`, `invalid_client`, `invalid_grant`, `unsupported_grant_type` and the internal error; an unauthenticated client changes nothing, an authenticated one spends the code |
| `AccessTokenFlow.NamedTwiceIsInvalid` | oxide-auth/src/code_grant/accesstoken.rs:323-357 | a client named in header and body gets `invalid_request` and changes nothing, whatever fails |
| `AccessTokenFlow.StoreFailuresAreInternal` | oxide-auth/src/code_grant/accesstoken.rs:440-480 | failures of the store are reported as internal errors, at the cost of what was already done: nothing without a connection, perhaps the code with an unanswered removal |
| `RefreshFlow.Execute` | oxide-auth/src/code_grant/refresh.rs:331-391 | the loop ends, asks each primitive at most once with the issuer last, changes nothing before, and equals the straight-line procedure |
| `RefreshFlow.ReferenceIsSound` | oxide-auth/src/code_grant/refresh.rs:331-497 | under any faults nothing stored widens, the store changes only for an entitled request, and a returned token is the stored one |
| `RefreshFlow.ServedIffEntitled` | oxide-auth/src/code_grant/refresh.rs:393-497 | without failing commands a refresh succeeds exactly for entitled requests on an unexpired grant that covers the scope asked for, while there is a usage counter, the access entry, and no other use of the tag drawn; with that scope and the new expiry, in both hashes |
| `RefreshFlow.ErrorsIff` | oxide-auth/src/code_grant/refresh.rs:393-497 | without failing commands, exactly which requests get each of `invalid_request`, `invalid_client`, `invalid_grant`, `invalid_scope`, `unsupported_grant_type` and the internal error; an error changes the store exactly if a request that would succeed meets no usage counter, no access entry or a used tag, and then the refresh token is lost |
| `RefreshFlow.StoreFailuresAreInternal` | oxide-auth/src/code_grant/refresh.rs:331-391 | a missing connection is an internal error that changes nothing, on looking the token up as on renewing it |
| `RefreshFlow.DiedIssueCostsTheRefreshToken` | oxide-auth/src/primitives/issuer.rs:389-428 | a store without usage counter is reached by an `issue` that dies before its last command |
| `RefreshFlow.ChainsOnlyNarrow` | oxide-auth/src/code_grant/refresh.rs:430-497 | along any chain of requests served one after the other, with any faults, no stored grant widens |
| `ResourceFlow.Protect` | oxide-auth/src/code_grant/resource.rs:219-250 | the loop ends, asks each question at most once, and equals the straight-line procedure |
| `ResourceFlow.AccessIff` | oxide-auth/src/code_grant/resource.rs:253-335 | access is granted exactly to a stored, unexpired bearer token whose scope the coded comparison allows |
| `ResourceFlow.AccessOnlyIf` | oxide-auth/src/code_grant/resource.rs:253-335 | the only-if part under any fault |
| `ResourceFlow.ErrorsIff` | oxide-auth/src/code_grant/resource.rs:253-335 | under any fault, exactly which bearer request gets `invalid_request`, `invalid_token`, `insufficient_scope` with the first scope of the resource, or access; and which request is invalid or lacks authentication (section 3 of RFC 6750) |
| `CodeFlow.Consent` | oxide-auth/src/code_grant/authorization.rs:466-486 | a redirect delivers one code, the state of the request and nothing else, only after the consented grant was stored under that new code; it panics exactly on reading an exhausted counter, and stores nothing then |
| `CodeFlow.ServeAuthorization` | oxide-auth/src/endpoint/authorization.rs:250-300 | an authorization request from beginning to end: a code is delivered only with consent, to the url and with the state of the request, for a stored grant of this owner, client, default scope and url, valid for a day; a denial is `access_denied` there; everything else stores nothing |
| `CodeFlow.ConsentThenRedeem` | oxide-auth/src/code_grant/accesstoken.rs:323-494 | a stored consent is redeemed exactly by the same authenticated client with the same redirect url and matching verifier within a day, while the tags drawn are not in use; the token stands for the consent and the code is gone |
| `CodeFlow.ChallengeAcceptedIff` | oxide-auth/src/code_grant/extensions/pkce.rs:74-97 | an authorization request passes exactly without a challenge where none is required, or with an enabled method |
| `CodeFlow.PkceAcceptsIff` | oxide-auth/src/frontends/simple/extensions/pkce.rs:6-30 | with pkce alone installed the token request passes exactly with the matching verifier, or without any challenge where none is required |
| `PkceAddons.AcceptedVerifierMatches` | oxide-auth/src/code_grant/extensions/pkce.rs:74-185 | acceptance by both addon loops implies that the verifier matches the announced challenge |
| `PkceAddons.SharedIdentifierDefeatsPkce` | oxide-auth/src/frontends/simple/extensions/list.rs:73-110 | another addon under the same identifier can replace the challenge |
| `PkceAddons.DecodeEncode` | oxide-auth/src/code_grant/extensions/pkce.rs:147-163 | the stored challenge decodes to what was encoded |
| `PkceAddons.VerifyIff` | oxide-auth/src/code_grant/extensions/pkce.rs:99-121 | on any stored data, exactly private data written for this very verifier passes; without data exactly where no challenge is required |
| `PkceAddons.AddonList.RunAuthorization` | oxide-auth/src/frontends/simple/extensions/list.rs:94-110 | it refuses exactly if an addon does, and else keeps under each identifier the last data answered for it and nothing more |
| `PkceAddons.AddonList.RunToken` | oxide-auth/src/frontends/simple/extensions/list.rs:73-92 | the same for the token request, where the stored data of an identifier goes to its first addon only |
| `PkceAddons.DistinctAddonsKeepTheirs` | oxide-auth/src/frontends/simple/extensions/list.rs:73-92 | an addon that shares its identifier with none is asked with its own stored data, and its answer is what is kept |
| `PkceAddons.AddonList.PushCode` | oxide-auth/src/frontends/simple/extensions/list.rs:47-54 | the addon is appended to both lists |
| `Registrars.BoundIsRegistered` | oxide-auth/src/primitives/registrar.rs:615-640 | a bound redirect is registered for the client and matches what was asked for |
| `Registrars.CheckMeaning` | oxide-auth/src/primitives/registrar.rs:398-406 | a check succeeds exactly with an accepted passphrase for a confidential client, or with none for a public one; it turns away exactly unknown clients, missing or needless passphrases, and those the policy rejects |
| `Registrars.FindUrl` | oxide-auth/src/primitives/registrar.rs:622-634 | the url found is registered and matches; none is found only if none matches |
| `Scopes.PartialCmpIsSubsetOrder` | oxide-auth/src/primitives/scope.rs:139-152 | the comparison by intersection sizes is the subset order, all four outcomes |
| `Scopes.ScopeOrderLaws` | oxide-auth/src/primitives/scope.rs:66-74 | the derived order is reflexive, antisymmetric and transitive |
| `Scopes.RoundTripIffWellFormed` | oxide-auth/src/primitives/scope.rs:97-137 | printing in any token order and parsing gives the scope back exactly if its tokens are proper (section 3.3 of RFC 6749) |
| `Scopes.ParsedIsWellFormed` | oxide-auth/src/primitives/scope.rs:97-109 | parsing only produces such scopes |
| `Scopes.ParseRefusesIff` | oxide-auth/src/primitives/scope.rs:100-103 | parsing refuses exactly the texts with a character that is not permitted, and names the first one (section 3.3 of RFC 6749) |
| `Scopes.ParseFindsStretches` | oxide-auth/src/primitives/scope.rs:104-107 | the tokens of an accepted text are exactly its longest stretches without a space |
| `Query.UniqueValue` | oxide-auth/src/endpoint/query.rs:205-218 | the scan returns the value exactly when the key occurs once |
| `Query.NormalizedParameter.InsertAll` | oxide-auth/src/endpoint/query.rs:130-144 | folding `insert_or_poison` over the list |
| `Query.FoldedAgreesWithScan` | oxide-auth/src/endpoint/query.rs:56-85 | lookup after folding equals the scan |
| `Query.OrderDoesNotMatter` | oxide-auth/src/endpoint/query.rs:199-232 | neither depends on the order of the pairs |
| `Query.UniqueIff` | oxide-auth/src/endpoint/query.rs:205-218 | a value comes out if and only if its pair occurs once and no other pair has the key (section 3.1 of RFC 6749) |
| `Query.NormalizeKeepsUniqueValues` | oxide-auth/src/endpoint/query.rs:174-197 | normalising a hash map keeps every unique value |
| `Query.UniqueIsOnlyText` | oxide-auth/src/endpoint/query.rs:254-323 | the unique value of nested containers is the only text inside |
| `Query.ComesOutIff` | oxide-auth/src/endpoint/query.rs:254-323 | a value comes out exactly if nothing inside, at any depth, is absent or a list of other than one item |
| `Query.AllFormsAgree` | oxide-auth/src/endpoint/query.rs:174-232 | list, folded list, grouped hash map and its normal form give the same unique values |
| `Assertions.SignThenExtract` | oxide-auth/src/primitives/generator.rs:164-221 | extracting with the same tag gives the grant back, expiry floored to seconds, exactly for well-formed scopes; another tag is rejected |
| `Assertions.WireRoundTrip` | oxide-auth/src/primitives/generator.rs:316-369 | the same for the wire format, with the flooring bounded by a second |
| `Assertions.TryFrom` | oxide-auth/src/primitives/generator.rs:334-353 | fails exactly with a private extension, else copies everything |
| `Assertions.IntoGrant` | oxide-auth/src/primitives/generator.rs:355-369 | the grant comes back exactly if scope and url parse, field by field |
| `Assertions.SignFailsIffUncarriable` | oxide-auth/src/primitives/generator.rs:164-221 | signing fails exactly for the grants that no string under any tag could carry, which are those with private data |
| `Assertions.ExtractedIsPublic` | oxide-auth/src/primitives/generator.rs:355-369 | whatever string is offered, a grant that comes out has public extensions only |
| `Assertions.AcceptedIffSigned` | oxide-auth/src/primitives/generator.rs:164-177 | whatever string is offered, a grant comes out exactly if it decodes to claims with their own HMAC that carry this grant and this tag |
| `Assertions.OneTagPerToken` | oxide-auth/src/primitives/generator.rs:217-221 | no string is accepted under two tags |
| `Assertions.SignIsInjective` | oxide-auth/src/primitives/generator.rs:191-199 | equal tokens have equal counter, tag and wire grant |
| `Assertions.SignaturesDiffer` | oxide-auth/src/primitives/issuer.rs:646-674 | however many threads issue at once and interleave, up to 2^64 signatures of one signer, access and refresh tokens together, all differ |
| `Assertions.IssueAlone` | oxide-auth/src/primitives/issuer.rs:653-674 | a call that runs alone draws the counter values that `TokenSigner.Issue` signs with |
| `Assertions.TokenSigner.Issue` | oxide-auth/src/primitives/issuer.rs:775-786 | which counters and tags sign the two tokens, and that counters are spent even on failure |
| `Assertions.IssuedTokensComeBack` | oxide-auth/src/primitives/issuer.rs:653-682 | an issued pair is recovered, each only as what it was issued for |
| `Assertions.NeverBothKinds` | oxide-auth/src/primitives/issuer.rs:792-803 | no string is ever recovered both as access and as refresh token |
| `Assertions.CountedSignatureTells` | oxide-auth/src/primitives/generator.rs:184-189 | if packing, HMAC and encoding keep different inputs apart, a counted signature tells its counter and its grant |
| `Signatures.SignedRunsAreFresh` | oxide-auth/src/primitives/generator.rs:184-189 | so with assertions as taggers the tags of orderly runs never repeat |
| `CodeFlow.AssertionCannotTagChallenges` | oxide-auth/src/primitives/generator.rs:184-189 | with an assertion as tagger, no consent to a request with a challenge ever yields a code, and the store stays as it is |

## Left out

- Web adapters, HTTP wrappers, JSON formatting, `WWW-Authenticate` rendering: input and output only.
- The asynchronous crate: the same machines and loops again.
- The database crate: foreign calls with threads and timeouts.
- The implicit flow: its tokens enter the model as other users of the token store, with no consent to trace to.
- `TokenMap::revoke`: changes maps that nothing reads.
- `TokenMap::import_grant`: modelled as a command, required to use a fresh key in all results that assume non-repeating tags; without that it can overwrite a live entry. `SelfKeys` covers it unrestricted.
- Serialisation inside the stores: tokens and grants are stored as values; a stored text that does not decode is not modelled.
- Registration: the registry is fixed while requests are served; that exact urls parsed when registered is `Registrars.ValidRegistry`.
- Passphrases are text, and url parsing is any function.
- A missing connection in the whole-server model is a call that is killed before its first command.
- The clock is read once per machine step.
