# JusticeGPT core in Dafny

JusticeGPT is a legal-assistant web application. Users consult an AI, analyse and notarize
their documents, and keep chat sessions. They can pick an interface language and a
jurisdiction, take video consultations with lawyer personas, and read a "Sue Your Ex"
page that scores relationship drama posts for their legal issues. This project models the
application's decision logic in Dafny and proves properties of it.

The centre is **document notarization**:

- A document's trimmed content is serialised as JSON, together with its metadata and a
  timestamp, and hashed with SHA-256 to 64 lowercase hex characters.
- The hash and the metadata go into a JSON note. The note rides on a zero-amount
  Algorand payment from the user's address to itself.
- A verifier later looks the transaction up, parses the note and compares the stored
  hash with the expected one.
- When the ledger cannot be reached, notarization still "succeeds" with a `DEMO_`
  transaction id. The verifier accepts any `DEMO_` id without a lookup.

Around it the model covers:

- the subscription ledger, with its tiers, usage counters and limits, and the
  usage-gating rules of the AI hook;
- the local credential store;
- the document list and the chat-session list;
- the keyword classifier of legal issues and its statistics;
- the lookup tables with fallbacks: translations, jurisdictions, personas and scripts,
  voices and dictation locales;
- the `isListening` state machine of speech recognition.

## Modules

There is one module per source file. Pure code is written as functions and lemmas. Objects
that the source updates in place are classes with `modifies` clauses:
`Algorand.Ledger`, the hooks' state, `RevenueCat.SubscriptionManager`,
`Auth.AuthProvider`, `Chat.ChatPage`, `Language.LanguageProvider` and
`ElevenLabs.SpeechRecognizer`. Where the source counts in loops, the model has methods
with loop invariants, proved against a specification function
(`Reddit.DetectIssues`, `SueYourEx.GetAnalysisStats`).

| file | module | models |
|---|---|---|
| wrappers.dfy | Wrappers | `Option`, `Result`, and the pass/fail outcome of a handler |
| text.dfy | Text | the JavaScript string operations used: `toLowerCase`, `trim`, `includes`, `startsWith`, `repeat`, `join`, number to string, `a \|\| b` on strings |
| hex.dfy | Hex | lowercase hex encoding of the SHA-256 digest |
| json.dfy | Json | `JSON.stringify` and `JSON.parse` (RFC 8259), and JavaScript objects as insertion-ordered member lists |
| algorand.dfy | Algorand | `src/lib/algorand.ts` |
| blockchain_hook.dfy | BlockchainHook | `src/hooks/useBlockchain.ts` |
| revenuecat.dfy | RevenueCat | `src/lib/revenuecat.ts` |
| subscription_hook.dfy | SubscriptionHook | `src/hooks/useSubscription.ts` |
| ai_hook.dfy | AIHook | `src/hooks/useAI.ts` |
| auth.dfy | Auth | `src/contexts/AuthContext.tsx` (local mode) |
| documents.dfy | Documents | `src/pages/Documents.tsx` |
| chat.dfy | Chat | `src/pages/Chat.tsx` |
| sorting.dfy | Sorting | the `sort((a, b) => key(b) - key(a)).slice(0, n)` idiom shared by the Reddit and drama modules |
| reddit.dfy | Reddit | `src/lib/reddit.ts` |
| sue_your_ex.dfy | SueYourEx | `src/hooks/useSueYourEx.ts` |
| sue_your_ex_mode.dfy | SueYourExMode | `src/components/SueYourExMode.tsx` |
| language.dfy | Language | `src/contexts/LanguageContext.tsx` |
| location.dfy | Location | `src/lib/location.ts` |
| tavus.dfy | Tavus | `src/lib/tavus.ts` |
| elevenlabs.dfy | ElevenLabs | `src/lib/elevenlabs.ts` |

The outside world enters as parameters:

- SHA-256 is an uninterpreted function from a string to 32 bytes.
- The clock readings and the values of `Math.random()` come in as a `Clock` record and
  numbers.
- The ledger's behaviour for one submission is a `Network` value: unreachable, rejected,
  confirmed within four rounds, or never confirmed.
- The AI, speech and video services are given as their replies.
- Whether a service is configured is a boolean.
- What local storage holds is an `Option`.

### What the code does and does not do

- No notarization result carries a `simulated` flag. The `DEMO_` prefix of the transaction
  id (`src/lib/algorand.ts:110`) is the only marker. `useBlockchain` sets `verified: true`
  on every notarized record, demo or real (`src/hooks/useBlockchain.ts:72`).
- The verifier never reads the note's `type` tag (`src/lib/algorand.ts:151-155`).
  `Algorand.TypeTagIgnored` proves that two notes which differ only in that tag get the same
  verdict.
- Malformed notes are not all reported alike:
  - A note that does not parse is reported as `'Verification failed'`.
  - A note that parses to `null` is also reported as `'Verification failed'`.
  - A note that parses to anything else without a `documentHash` gives `verified: false` with
    no error at all.
- Empty content is not rejected anywhere: it hashes like any other string.

## Model

| member | source | states |
|---|---|---|
| Text.TrimIgnoresPadding | src/lib/algorand.ts:34 | surrounding a string with ECMAScript whitespace does not change its `trim()` |
| Text.TrimShape | src/lib/algorand.ts:34 | `trim()` returns a contiguous piece of its argument, with no whitespace at either end |
| Text.LowerIdempotent | src/contexts/AuthContext.tsx:178 | lowercasing twice is lowercasing once, so a key stored lowercased is found again from any casing |
| Text.ContainsExtend | src/lib/reddit.ts:182 | text appended after a match does not undo `includes` |
| Text.OrElse | src/contexts/LanguageContext.tsx:422 | `a \|\| b` on strings yields `a` or `b`, and is empty only when both are |
| Text.NatToStringInjective | src/hooks/useBlockchain.ts:66 | distinct numbers print as distinct decimal strings, so the ids built from timestamps differ |
| Hex.HexRoundTrip | src/lib/algorand.ts:39 | decoding the hex encoding of a byte sequence gives the bytes back |
| Hex.ToHexInjective | src/lib/algorand.ts:39 | different digests have different hex strings |
| Hex.DigestHexShape | src/lib/algorand.ts:39 | a 32-byte digest encodes to exactly 64 lowercase hex characters |
| Json.GetPut | src/lib/algorand.ts:70-74 | after `o[k] = v`, reading `k` gives `v` and reading any other key gives what it gave before |
| Json.GetIn | src/lib/algorand.ts:152-155 | a property read finds a value exactly when the object has that key |
| Json.GetAt | src/lib/algorand.ts:155 | in an object without duplicate keys, reading a member's key gives that member's value |
| Json.PutKeepsDistinct | src/lib/algorand.ts:70-74 | property writes never create duplicate keys |
| Json.BuildIdentity | src/lib/algorand.ts:152 | `JSON.parse` rebuilds an object with distinct keys member for member |
| Json.EscapeRoundTrip | src/lib/algorand.ts:67 | the string body parser reads back exactly the characters that `JSON.stringify` escaped, then stops after the closing quote |
| Json.NumberRoundTrip | src/lib/algorand.ts:36 | a number lexeme followed by a delimiter parses to that number and leaves the rest |
| Json.ValueRoundTrip | src/lib/algorand.ts:33-37 | the text of any canonical value, followed by a delimiter, parses back to the value |
| Json.ParseStringify | src/lib/algorand.ts:152 | `JSON.parse(JSON.stringify(j))` is `j` for every value a JavaScript object can print as |
| Json.StringifyInjective | src/lib/algorand.ts:33-37 | different canonical values never print the same |
| Algorand.HashShape | src/lib/algorand.ts:32-40 | `generateDocumentHash` yields 64 lowercase hex characters |
| Algorand.HashIgnoresPadding | src/lib/algorand.ts:32-40 | for fixed metadata and timestamp, leading and trailing whitespace in the content never changes the hash |
| Algorand.HashInputInjective | src/lib/algorand.ts:33-37 | the hashed JSON determines the trimmed content, the metadata and the timestamp |
| Algorand.RecordCanonical | src/lib/algorand.ts:33-37 | the hash record is a value that `JSON.stringify` prints faithfully |
| Algorand.NoteMetadataOverrides | src/lib/algorand.ts:71-75 | the note's metadata has the injected `notarizedAt` and `platform: 'JusticeGPT'`, overriding the caller's keys of those names; every other key keeps the caller's value |
| Algorand.NoteCanonical | src/lib/algorand.ts:67-76 | the note record is canonical whenever the caller's metadata is |
| Algorand.PutCanonical | src/lib/algorand.ts:71-75 | writing a canonical value into a canonical member list keeps it canonical |
| Algorand.NoteParses | src/lib/algorand.ts:67-76 | the note text the transaction carries parses back to exactly the record that was written |
| Algorand.Ledger.constructor | src/lib/algorand.ts:10 | the ledger starts with the given confirmed transactions |
| Algorand.TxIdNotDemo | src/lib/algorand.ts:125 | a real 52-character base32 transaction id never starts with `DEMO_` |
| Algorand.DemoBlock | src/lib/algorand.ts:111 | the fallback block number lies in [0, 1000000) |
| Algorand.DemoResult | src/lib/algorand.ts:103-116 | the catch branch reports success with no error, a `DEMO_` id, a block below 1000000 and a freshly computed hash |
| Algorand.NotarizationOutcome | src/lib/algorand.ts:53-117 | `notarizeDocument` never reports failure; a confirmed submission returns its txId, its confirmed round and the hash; every other network outcome takes the demo fallback |
| Algorand.NotarizeDocument | src/lib/algorand.ts:53-117 | the result is `NotarizationOutcome`; a confirmed submission adds one zero-amount self-payment carrying the note under its txId; otherwise the ledger is unchanged |
| Algorand.VerifyDocumentNotarization | src/lib/algorand.ts:119-172 | the verdict is `Verification` of the ledger's transactions, and the ledger is not changed |
| Algorand.DemoAlwaysVerifies | src/lib/algorand.ts:124-137 | a `DEMO_` id verifies against any expected hash, and echoes it, whatever the ledger holds and whether or not the indexer is up |
| Algorand.VerificationErrors | src/lib/algorand.ts:139-171 | the errors are `'Transaction not found'`, `'No notarization data found'`, and `'Verification failed'` for an unreachable indexer or a note that does not parse or parses to `null`; each with `verified: false` |
| Algorand.VerifiedMeansMatch | src/lib/algorand.ts:151-157 | a non-demo verdict is true only if the stored note parses to an object whose `documentHash` is the expected string |
| Algorand.NotarizeVerifyRoundTrip | src/lib/algorand.ts:119-172 | verifying the txId of a note built with hash h gives true exactly for the expected hash h, with details carrying the round, the round time, h and the note's metadata |
| Algorand.TypeTagIgnored | src/lib/algorand.ts:151-166 | two notes that differ only in their `type` tag get the same verdict |
| Algorand.QrRoundTrip | src/lib/algorand.ts:175-184 | the QR payload parses back to the platform, the transaction id, the hash and the verify URL of that id |
| Algorand.QrInjective | src/lib/algorand.ts:175-184 | different ids or hashes never give the same QR payload |
| Algorand.GenerateDocumentHash | src/lib/algorand.ts:32-40 | defines `generateDocumentHash`: the SHA-256, in lowercase hex, of the JSON of the trimmed content, the metadata and the timestamp; its shape is stated by `Algorand.HashShape` |
| Algorand.NotarizationTxn | src/lib/algorand.ts:78-84 | defines the notarization transaction: a zero-amount payment from the user's address to itself carrying the note |
| Algorand.Verification | src/lib/algorand.ts:119-172 | defines `verifyDocumentNotarization`'s answer; its cases are stated by the lemmas about it |
| Algorand.GenerateVerificationQR | src/lib/algorand.ts:175-184 | defines `generateVerificationQR`: the JSON of the transaction id, the hash and the verification URL |
| BlockchainHook.MergeOverrides | src/hooks/useBlockchain.ts:43-50 | the merged metadata has `documentName`, `userId`, `userEmail`, `platform` and `jurisdiction` from the call and the user; every other key keeps the caller's value |
| BlockchainHook.MergedValue | src/hooks/useBlockchain.ts:43-50 | the value of every key of the merged metadata, key by key |
| BlockchainHook.MergeCanonical | src/hooks/useBlockchain.ts:43-50 | merging keeps the metadata canonical |
| BlockchainHook.RecordVerifies | src/hooks/useBlockchain.ts:28-77 | verifying a record that `notarize` confirmed gives true exactly for its own hash, with details carrying the merged metadata |
| BlockchainHook.Hook.constructor | src/hooks/useBlockchain.ts:24-25 | both flags start false |
| BlockchainHook.Hook.Notarize | src/hooks/useBlockchain.ts:28-86 | with no user it fails with the login error and touches nothing; otherwise it copies hash, txId, block and timestamp from the result, builds the id `user.id + '_' + time`, sets `verified` and the QR payload, and leaves `isNotarizing` false |
| BlockchainHook.Hook.Verify | src/hooks/useBlockchain.ts:88-110 | returns the verifier's result unchanged and leaves `isVerifying` false |
| BlockchainHook.MergeMetadata | src/hooks/useBlockchain.ts:43-50 | defines the notarization metadata: the caller's fields overridden by the document name, user id, email, platform and jurisdiction |
| BlockchainHook.GenerateHash | src/hooks/useBlockchain.ts:112-114 | `generateHash` forwards to `generateDocumentHash`: 64 lowercase hexadecimal characters |
| RevenueCat.AddUsage | src/lib/revenuecat.ts:228 | adding to one usage counter changes that counter by the amount and no other |
| RevenueCat.FindIn | src/lib/revenuecat.ts:234 | `find` by id returns the first tier with that id, or none when no tier has it |
| RevenueCat.FindTierIsFind | src/lib/revenuecat.ts:22-91 | the tier lookup over the fixed table agrees with `find` and returns a tier of the table |
| RevenueCat.TrackedTimesUsage | src/lib/revenuecat.ts:226-230 | n uses tracked one at a time add n to that counter only and keep the tier |
| RevenueCat.FreeQuota | src/lib/revenuecat.ts:232-242 | from a fresh free record, the AI consultation check passes exactly for the first 5 uses and document analysis for the first 2 |
| RevenueCat.FreeNeverVideo | src/lib/revenuecat.ts:35-41 | a free record never passes the video check (its limit is 0) |
| RevenueCat.AllowsIndependent | src/lib/revenuecat.ts:226-242 | tracking one counter never changes the verdict of a check on another |
| RevenueCat.RefusalStays | src/lib/revenuecat.ts:226-242 | once refused, more use of the same counter keeps it refused |
| RevenueCat.UpgradeVerdicts | src/lib/revenuecat.ts:200-212 | an upgrade keeps usage and the cancel flag; an unknown tier id refuses every check; premium passes every check except video consultations and document storage, whatever the usage |
| RevenueCat.CancelTwice | src/lib/revenuecat.ts:214-224 | cancelling twice leaves the same map as cancelling once |
| RevenueCat.SubscriptionManager.constructor | src/lib/revenuecat.ts:109-112 | the manager starts with no records |
| RevenueCat.SubscriptionManager.GetUserSubscription | src/lib/revenuecat.ts:121-169 | a cached record is returned and the map is unchanged; otherwise the default free record is stored and returned |
| RevenueCat.SubscriptionManager.UpgradeSubscription | src/lib/revenuecat.ts:171-212 | the stored record takes the new tier and `active`, keeping usage and the cancel flag |
| RevenueCat.SubscriptionManager.CancelSubscription | src/lib/revenuecat.ts:214-224 | only `cancelAtPeriodEnd` becomes true |
| RevenueCat.SubscriptionManager.TrackUsage | src/lib/revenuecat.ts:226-230 | only the user's record changes, by the tracked amount |
| RevenueCat.SubscriptionManager.CheckUsageLimit | src/lib/revenuecat.ts:232-242 | false for an unknown tier, true for an unlimited counter, otherwise `usage < limit`; the map gains at most the default record |
| SubscriptionHook.CurrentTier | src/hooks/useSubscription.ts:118-125 | the tier `find` returns among the listed tiers for the subscription's tier id, else the user's plan, else `'free'`; when no tier has that id, the first tier |
| SubscriptionHook.PlanTier | src/hooks/useSubscription.ts:121-122 | with no subscription, a user's known plan is the current tier |
| SubscriptionHook.UsagePercentage | src/hooks/useSubscription.ts:127-137 | 0 with no subscription or an unlimited counter; otherwise at most 100, and exactly 100 once the usage reaches the limit, else `usage / limit * 100` |
| SubscriptionHook.AnyContainsIff | src/hooks/useSubscription.ts:139-142 | a feature is available iff some feature of the tier contains it, ignoring case |
| SubscriptionHook.NotarizationIsPremium | src/hooks/useSubscription.ts:139-142 | a premium subscription has the notarization feature |
| SubscriptionHook.DaysUntilRenewal | src/hooks/useSubscription.ts:144-153 | 0 with no subscription or a past period end; otherwise the ceiling of the remaining time in days |
| SubscriptionHook.FreshPeriod | src/hooks/useSubscription.ts:144-153 | a fresh default record renews in 30 days |
| SubscriptionHook.Hook.constructor | src/hooks/useSubscription.ts:7-9 | no subscription, loading, not upgrading |
| SubscriptionHook.Hook.LoadSubscription | src/hooks/useSubscription.ts:22-54 | with no user nothing but the loading flag changes; otherwise the user's current record is loaded and cached |
| SubscriptionHook.Hook.Upgrade | src/hooks/useSubscription.ts:56-75 | does nothing without a user or a subscription; otherwise stores and returns the upgraded record |
| SubscriptionHook.Hook.Cancel | src/hooks/useSubscription.ts:77-91 | does nothing without a user or a subscription; otherwise stores and returns the cancelled record |
| SubscriptionHook.Hook.CheckUsageLimit | src/hooks/useSubscription.ts:93-103 | false with no user, true when the manager throws, otherwise the manager's verdict |
| SubscriptionHook.Hook.TrackUsage | src/hooks/useSubscription.ts:105-116 | with a user, tracks the usage and reloads the record; without one nothing changes |
| SubscriptionHook.IsFeatureAvailable | src/hooks/useSubscription.ts:139-142 | defines `isFeatureAvailable`: some feature of the current tier contains the name, ignoring case |
| AIHook.EstimatedMinutes | src/hooks/useAI.ts:72-73 | the voice minutes charged are `ceil(words / 150)` of the space-separated words |
| AIHook.AnswerUsageCounts | src/hooks/useAI.ts:54-104 | after an answer, AI consultations grow by one, voice minutes by the estimate if audio was tracked, videos by one if video was tracked, and nothing else |
| AIHook.Hook.constructor | src/hooks/useAI.ts:18-20 | all three flags start false |
| AIHook.Hook.GenerateResponse | src/hooks/useAI.ts:23-121 | fails without a user or configuration before tracking anything; gates free non-local users on the consultation limit; on an AI failure only the check's default record is stored; otherwise returns the text with the audio and video URLs and tracks usage for non-local users only; `isLoading` ends false |
| AIHook.Hook.Answer | src/hooks/useAI.ts:53-117 | the response and the usage record after a successful text reply, audio and video steps included |
| AIHook.Hook.Speech | src/hooks/useAI.ts:63-81 | audio is attached only when requested; a failure of speech never fails the call; voice minutes are tracked only for non-local users whose audio succeeded |
| AIHook.Hook.Video | src/hooks/useAI.ts:83-115 | local users get the fixed mock URL; others get a video (and are charged for one) only when their video check passes, and a URL only for a completed video |
| AIHook.Hook.AnalyzeDocument | src/hooks/useAI.ts:123-163 | the same gating on the document-analysis limit; the analysis is tracked only when it succeeds for a non-local user |
| Auth.DemoUsers | src/contexts/AuthContext.tsx:25-48 | the store starts with exactly the two demo accounts, each under its lowercased email |
| Auth.DemoLoginAnyCase | src/contexts/AuthContext.tsx:178-179 | for every email that lowercases to `demo@justicegpt.ai`, a password is accepted iff it is `demo123` |
| Auth.TestLoginAnyCase | src/contexts/AuthContext.tsx:178-179 | for every email that lowercases to `test@example.com`, a password is accepted iff it is `test123` |
| Auth.DemoWrongPassword | src/contexts/AuthContext.tsx:179 | passwords match exactly: a wrong casing or another account's password is refused |
| Auth.RegisterKeepsWellKeyed | src/contexts/AuthContext.tsx:269 | registering keeps every account under its own lowercased email |
| Auth.RegisterThenLogin | src/contexts/AuthContext.tsx:253-284 | after registering, login with any casing of the email succeeds exactly with the registered password |
| Auth.RegisterLeavesOthers | src/contexts/AuthContext.tsx:269 | registering never changes whether another email logs in |
| Auth.AuthProvider.constructor | src/contexts/AuthContext.tsx:51-53 | no user, not loading, the demo store, storage as given |
| Auth.AuthProvider.RestoreSession | src/contexts/AuthContext.tsx:104-128 | with both keys saved: the user is restored, keys kept, iff both strings parse and the session is younger than 7 days; a parse failure or an expired session clears both keys |
| Auth.AuthProvider.Login | src/contexts/AuthContext.tsx:174-202 | succeeds iff the lowercased email is stored with exactly this password; then the user and a fresh session are stored; otherwise it fails with the error and changes nothing |
| Auth.AuthProvider.Logout | src/contexts/AuthContext.tsx:204-220 | the user and both stored keys are cleared |
| Auth.AuthProvider.Register | src/contexts/AuthContext.tsx:253-290 | fails iff the lowercased email exists, leaving everything unchanged; otherwise stores the new account under the lowercased email and signs it in with a fresh session |
| Auth.Accepts | src/contexts/AuthContext.tsx:178-179 | defines the local credential check: the lowercased email is registered and the password matches exactly |
| Auth.NewAccount | src/contexts/AuthContext.tsx:260-269 | defines the account a local registration stores: `local_` id from the clock, lowercased email, premium plan |
| Auth.SessionValid | src/contexts/AuthContext.tsx:116 | defines the session check: less than a week old |
| Documents.DocumentTypeIsFirstMatch | src/pages/Documents.tsx:300-308 | the type is the first of contract, agreement, template, brief, filing contained in the lowercased name, else other |
| Documents.ContractBeforeAgreement | src/pages/Documents.tsx:302-303 | `"Contract_Agreement.txt"` is a contract |
| Documents.ToggleFavorite | src/pages/Documents.tsx:364-370 | flips `isFavorite` on the documents with that id and nothing else |
| Documents.ToggleTwice | src/pages/Documents.tsx:364-370 | toggling twice restores the list |
| Documents.DeleteDocument | src/pages/Documents.tsx:372-377 | removes every document with that id and keeps every other |
| Documents.DeleteAppend | src/pages/Documents.tsx:373 | deletion works piecewise, so the survivors keep their order |
| Documents.DeleteAbsent | src/pages/Documents.tsx:373 | deleting an id no document has changes nothing |
| Documents.DeleteTwice | src/pages/Documents.tsx:373 | deleting twice is deleting once |
| Documents.Dedup | src/pages/Documents.tsx:336 | the `indexOf` filter keeps the same elements without duplicates |
| Documents.DedupDistinct | src/pages/Documents.tsx:336 | a list without duplicates passes the filter unchanged |
| Documents.MergeTags | src/pages/Documents.tsx:334-336 | the merged tags are the old tags and the lowercased first words of up to 3 key points, without duplicates |
| Documents.MergeKeepsTags | src/pages/Documents.tsx:334-336 | the old tags stay first and in order |
| Documents.NotarizeUpdate | src/pages/Documents.tsx:379-402 | a missing or empty document or a failed notarization changes nothing; otherwise only that document becomes notarized with the transaction id |
| Documents.AnalyzeUpdate | src/pages/Documents.tsx:310-361 | a missing or empty document or no AI changes nothing; a success marks it analysed with the summary and merged tags; a failure marks it failed with the apology summary |
| Documents.MbHundredths | src/pages/Documents.tsx:257 | the size label is the size in MiB rounded to two decimals |
| Documents.AcceptedLabel | src/pages/Documents.tsx:237-257 | an accepted file (at most 10 MiB) never shows more than 10.00 MB |
| Documents.Upload | src/pages/Documents.tsx:246-265 | prepends one pending, untagged, non-favourite document of the file's type and content |
| Documents.Select | src/pages/Documents.tsx:438-442 | keeps exactly the documents matching the search (name or tag, ignoring case) and the type filter |
| Documents.Insert | src/pages/Documents.tsx:443-453 | inserting into a sorted list keeps it sorted and adds exactly that document |
| Documents.Sort | src/pages/Documents.tsx:443-453 | the sort is a sorted permutation |
| Documents.SortStable | src/pages/Documents.tsx:443-453 | the sort is stable: documents the comparator ties keep their input order |
| Documents.FilteredView | src/pages/Documents.tsx:438-453 | the view is a permutation of the matching documents; the date order is newest first |
| Documents.ShowAll | src/pages/Documents.tsx:438-442 | an empty search with `'all'` shows every document |
| Documents.Find | src/pages/Documents.tsx:310 | defines the document lookup by id, `Wrappers.Find` on the list |
| Documents.GetDocumentType | src/pages/Documents.tsx:300-308 | defines `getDocumentType`: the first matching substring rule on the lowercased name, else `other` |
| Documents.NewDocument | src/pages/Documents.tsx:253-263 | defines the record an upload prepends: id from the clock, type from the name, size label, pending, no tags |
| Documents.ProcessUpload | src/pages/Documents.tsx:246-283 | `processUpload` as written: the automatic analysis looks the new id up in the list from before the upload, so when that id is absent the result is the plain upload |
| Documents.UploadStaysPending | src/pages/Documents.tsx:274-277 | with the AI configured and an analysis available, the uploaded document is still pending, with no summary and no tags, and the rest of the list is unchanged |
| Documents.ProcessUploadCorrected | src/pages/Documents.tsx:246-283 | the upload followed by its analysis: one more document at the front; analysed with the summary and the key points as tags when an analysis comes back, failed when none does, pending when the AI is off or the file is empty |
| Documents.FilteredDocuments | src/pages/Documents.tsx:438-453 | defines `filteredDocuments`: the search and type filter followed by the sort |
| Chat.PlanLabel | src/pages/Chat.tsx:267 | the plan shown is never empty and is the tier id when there is one |
| Chat.NewSession | src/pages/Chat.tsx:246-285 | the new session has the time as id, the title `'Legal Consultation'` and one welcome message with id `'1'` |
| Chat.WithoutSession | src/pages/Chat.tsx:303 | keeps exactly the sessions with another id |
| Chat.SessionTitle | src/pages/Chat.tsx:321-323 | the first 50 characters of the second message plus `'...'`, or `'New Chat'` with fewer than two messages |
| Chat.Retitled | src/pages/Chat.tsx:316-332 | only the session with that id takes the messages, the new title and the time |
| Chat.ContextWindow | src/pages/Chat.tsx:412 | the last 10 messages (all of them when fewer) |
| Chat.ReplyMessage | src/pages/Chat.tsx:415-440 | the assistant's reply carries the AI text and media on success and the apology otherwise |
| Chat.WithoutAbsent | src/pages/Chat.tsx:303 | deleting an absent id changes nothing |
| Chat.WithoutSessionLeavesNone | src/pages/Chat.tsx:303 | no session with the id survives, and deleting twice is deleting once |
| Chat.DeleteCreated | src/pages/Chat.tsx:302-314 | deleting a chat just created gives the previous list back |
| Chat.TitleStable | src/pages/Chat.tsx:321-323 | later messages never change a title |
| Chat.RetitleTwice | src/pages/Chat.tsx:316-332 | the last update wins |
| Chat.ContextOfSend | src/pages/Chat.tsx:412 | a full window slides by one message |
| Chat.ChatPage.constructor | src/pages/Chat.tsx:176-177 | the first render has no sessions and none current, while the browser still holds whatever was saved before |
| Chat.ChatPage.LoadChatSessions | src/pages/Chat.tsx:226-240 | a saved list replaces the sessions; with nothing saved nothing changes |
| Chat.ChatPage.StartChatFrom | src/pages/Chat.tsx:246-285 | the welcome session in front of the list of the calling render, saved and current |
| Chat.ChatPage.CreateNewChat | src/pages/Chat.tsx:246-285 | the new session goes in front of the list, the list is saved, and the new session becomes current with its welcome message |
| Chat.ChatPage.InitializeChat | src/pages/Chat.tsx:338-345 | creates and saves a chat only for a user with no sessions in state, and otherwise changes nothing |
| Chat.ChatPage.Mount | src/pages/Chat.tsx:191-197 | with a user and nothing in state, one new chat is saved over the stored entry and is all the list reads back |
| Chat.ChatPage.MountCorrected | src/pages/Chat.tsx:191-197 | loading first: a saved non-empty list is kept and storage untouched; otherwise one new chat is created and saved |
| Chat.ChatPage.LoadChatSession | src/pages/Chat.tsx:287-300 | selects a session that exists and changes nothing otherwise |
| Chat.ChatPage.DeleteChatSession | src/pages/Chat.tsx:302-314 | removes the id and saves the rest; if it was current, selects the first survivor, or with none left puts a new chat in front of the list as it was before the delete and saves that |
| Chat.ChatPage.DeleteChatSessionCorrected | src/pages/Chat.tsx:302-314 | as above, but with none left only the new chat remains; the id is gone unless it is the new chat's own |
| Chat.ChatPage.UpdateCurrentSession | src/pages/Chat.tsx:316-336 | does nothing with no current session; otherwise retitles only the current one and saves the list |
| Chat.ChatPage.HandleSendMessage | src/pages/Chat.tsx:376-447 | ignores blank input, a missing user, no AI and a refused free user; otherwise sends the last 10 messages, grows the list by the user message and one reply, saves the current session and clears the input |
| Chat.OpenChatPage | src/pages/Chat.tsx:191-197 | opening the page signed in ends with one new chat in state and storage; a saved history of two or more chats is overwritten |
| Chat.OpenChatPageCorrected | src/pages/Chat.tsx:191-197 | a saved non-empty history is what the page shows and keeps; otherwise it starts one new chat |
| Chat.DeleteOnlyChat | src/pages/Chat.tsx:302-314 | deleting the only chat while it is open leaves the new chat and the deleted one, both saved |
| Chat.DeleteOnlyChatCorrected | src/pages/Chat.tsx:302-314 | with the correction only the new chat is left and saved, and the deleted id is gone |
| Sorting.InsertDesc | src/lib/reddit.ts:113 | inserting into a list sorted highest first keeps it sorted and adds exactly that element |
| Sorting.SortDesc | src/lib/reddit.ts:113 | the sort is a permutation, highest first |
| Sorting.SortDescStable | src/lib/reddit.ts:113 | the sort is stable: elements with equal keys keep their input order |
| Sorting.TakeFirst | src/lib/reddit.ts:114 | `slice(0, n)` is the first min(n, length) elements |
| Sorting.TopOf | src/lib/reddit.ts:112-114 | the top n are sorted, come from the input, and none of the rest beats them |
| Sorting.TopExcludes | src/lib/reddit.ts:112-114 | every element left out scores no higher than any element kept |
| Reddit.Rank | src/lib/reddit.ts:168-174 | every issue has its place in the table order |
| Reddit.Claims | src/lib/reddit.ts:185-201 | each issue has exactly two claims |
| Reddit.ClaimsOf | src/lib/reddit.ts:185-201 | the claims number twice the issues |
| Reddit.Round | src/lib/reddit.ts:226 | `Math.round` is within one half of its argument |
| Reddit.Clamp | src/lib/reddit.ts:214-216 | the clamped value lies in [1, 10] and is unchanged inside it |
| Reddit.DetectIssues | src/lib/reddit.ts:176-203 | the loop pushes exactly the detected issues and their claims |
| Reddit.AnalyzeLegalIssues | src/lib/reddit.ts:163-228 | the analysis is `AnalysisOf(post, jurisdiction)`: it echoes the post and jurisdiction, and holds the detected issues, their claims, the severity, its recommendation and the rounded score |
| Reddit.DetectedIff | src/lib/reddit.ts:176-183 | an issue is detected iff one of its keywords occurs in the lowercased title and body |
| Reddit.DetectedInTableOrder | src/lib/reddit.ts:168-184 | detected issues appear in table order without duplicates |
| Reddit.ClaimsPairs | src/lib/reddit.ts:185-201 | claims 2j and 2j+1 are the two claims of issue j |
| Reddit.SeverityLadder | src/lib/reddit.ts:206-211 | high iff threats or harassment; medium iff neither and more than one issue; otherwise low |
| Reddit.RatingMonotone | src/lib/reddit.ts:214-226 | more issues never lower the score |
| Reddit.MeterLength | src/lib/reddit.ts:247 | the meter has `ceil(value / 2)` glyphs |
| Reddit.IssueHashtags | src/lib/reddit.ts:257 | one capitalised hashtag per issue, in order |
| Reddit.ShareTitleShape | src/lib/reddit.ts:247-250 | the corrected title is the alert text and `ceil(value / 2)` fire emoji |
| Reddit.ShareHashtagsShape | src/lib/reddit.ts:252-258 | the four fixed tags, then `#` and each capitalised issue name |
| Reddit.MeterMismatch | src/lib/reddit.ts:247 | as written, the meter is four mojibake characters per step and not the fire emoji |
| Reddit.MockPosts | src/lib/reddit.ts:123-160 | three mock posts |
| Reddit.FetchRelationshipDrama | src/lib/reddit.ts:60-120 | the mock posts when no client id is configured or the fetch fails |
| Reddit.FetchedTop | src/lib/reddit.ts:112-114 | otherwise at most `limit` fetched posts, highest score first, and no post left out scores higher |
| Reddit.AnalysisOf | src/lib/reddit.ts:163-228 | defines `analyzeLegalIssues`: detected issues, claims, severity, recommendation and rating of a post |
| Reddit.Recommendation | src/lib/reddit.ts:230-238 | defines the recommendation text for each severity |
| Reddit.ShareableContentAsWritten | src/lib/reddit.ts:241-261 | defines `generateShareableContent` as written, with the mis-decoded fire characters |
| Reddit.ShareableContent | src/lib/reddit.ts:241-261 | defines `generateShareableContent` with the fire emoji |
| SueYourEx.Lookup | src/hooks/useSueYourEx.ts:61 | `Map.get` returns nothing exactly when no entry has the id |
| SueYourEx.LookupStored | src/hooks/useSueYourEx.ts:30 | after `set`, the id maps to the new analysis and every other id is unchanged |
| SueYourEx.StoredKeepsDistinct | src/hooks/useSueYourEx.ts:30 | `set` keeps one entry per id |
| SueYourEx.Paired | src/hooks/useSueYourEx.ts:58-62 | each post pairs with its stored analysis |
| SueYourEx.Analysed | src/hooks/useSueYourEx.ts:63 | keeps exactly the items with an analysis |
| SueYourEx.TopDramaItems | src/hooks/useSueYourEx.ts:57-66 | at most `count` analysed posts, highest entertainment first, each with its own analysis |
| SueYourEx.TopDramaBest | src/hooks/useSueYourEx.ts:57-66 | an analysed post left out scores no higher than any kept one |
| SueYourEx.DramaByCategory | src/hooks/useSueYourEx.ts:68-78 | keeps a post iff its issues include the lowercased category or its lowercased subreddit contains it |
| SueYourEx.GetAnalysisStats | src/hooks/useSueYourEx.ts:80-123 | zeros and no top issues when nothing is analysed; otherwise the count, the rounded average, the top issues and the severity breakdown |
| SueYourEx.SumEntertainment | src/hooks/useSueYourEx.ts:92 | the reduce sums the scores |
| SueYourEx.CountIssues | src/hooks/useSueYourEx.ts:96-101 | the nested loops build the issue table |
| SueYourEx.CountSeverities | src/hooks/useSueYourEx.ts:109-115 | the reduce counts each severity |
| SueYourEx.SeverityBreakdown | src/hooks/useSueYourEx.ts:109-118 | low + medium + high equals the number analysed |
| SueYourEx.IssueCounts | src/hooks/useSueYourEx.ts:96-101 | each issue's count is the number of analyses listing it, at most the number analysed |
| SueYourEx.TopIssuesShape | src/hooks/useSueYourEx.ts:103-106 | at most 5 top issues, highest count first, each with its true count |
| SueYourEx.Hook.constructor | src/hooks/useSueYourEx.ts:7-10 | no posts, no analyses, both flags false |
| SueYourEx.Hook.FetchDrama | src/hooks/useSueYourEx.ts:12-24 | the posts become the fetched (or mock) posts |
| SueYourEx.Hook.AnalyzeDrama | src/hooks/useSueYourEx.ts:26-43 | stores the post's analysis under its id, inserting or replacing, and leaves other entries alone |
| SueYourEx.TopDrama | src/hooks/useSueYourEx.ts:57-66 | defines `getTopDrama(count)`: analysed posts ordered by entertainment value, the first `count` of them |
| SueYourExMode.SeverityColorsDistinct | src/components/SueYourExMode.tsx:66-72 | the three severities get three different badge classes |
| SueYourExMode.FireCount | src/components/SueYourExMode.tsx:74-79 | three fires from 8, two from 6, one from 4 |
| SueYourExMode.DramaEmoji | src/components/SueYourExMode.tsx:74-79 | that many fire emoji, or the sleeping face when there are none |
| SueYourExMode.FireCountMonotone | src/components/SueYourExMode.tsx:74-79 | a higher score never shows fewer fires |
| SueYourExMode.ShareTextParts | src/components/SueYourExMode.tsx:56 | the clipboard text starts with the title and contains the description and the joined hashtags |
| SueYourExMode.ModePage.constructor | src/components/SueYourExMode.tsx:15-18 | nothing selected, default jurisdiction |
| SueYourExMode.ModePage.HandleAnalyzePost | src/components/SueYourExMode.tsx:32-42 | an id that is not among the posts changes nothing; otherwise it is selected and the analysis of the first post with that id, for the page's jurisdiction, is stored under the id, other entries unchanged |
| SueYourExMode.FindPost | src/components/SueYourExMode.tsx:33 | `find` returns a post with that id, or none when no post has it |
| SueYourExMode.SeverityColor | src/components/SueYourExMode.tsx:66-72 | defines `getSeverityColor`: the badge classes of each severity |
| SueYourExMode.ShareText | src/components/SueYourExMode.tsx:56 | defines the clipboard text: title, description and the hashtags joined by spaces, separated by blank lines |
| Language.AllLeftToRight | src/contexts/LanguageContext.tsx:10-17 | no supported language is right to left |
| Language.CodesDistinct | src/contexts/LanguageContext.tsx:10-17 | the six codes are pairwise different |
| Language.FindLanguage | src/contexts/LanguageContext.tsx:412 | `find` by code returns a language with that code, or none when no language has it |
| Language.FindOwnCode | src/contexts/LanguageContext.tsx:412 | a supported language is found from its own code |
| Language.Direction | src/contexts/LanguageContext.tsx:402 | `'rtl'` iff the language is right to left |
| Language.Translate | src/contexts/LanguageContext.tsx:421-423 | the current language's text, else the English text, else the key |
| Language.TranslateNonEmpty | src/contexts/LanguageContext.tsx:422 | a non-empty key never translates to the empty string |
| Language.TranslateMissing | src/contexts/LanguageContext.tsx:422 | a key missing from every table is shown as it is |
| Language.TranslateUnknownLanguage | src/contexts/LanguageContext.tsx:422 | a language without a table reads the English one |
| Language.LanguageProvider.constructor | src/contexts/LanguageContext.tsx:397 | the first language is English |
| Language.LanguageProvider.SetLanguage | src/contexts/LanguageContext.tsx:399-406 | switches, writes the code and direction to the document and remembers the code |
| Language.LanguageProvider.RestoreSavedLanguage | src/contexts/LanguageContext.tsx:409-419 | a stored code is taken up only if a supported language has it; storage is left alone |
| Language.ChooseThenReload | src/contexts/LanguageContext.tsx:399-419 | choosing a supported language and reloading comes back to it |
| Location.SupportedCodesDistinct | src/lib/location.ts:27-118 | ten entries with pairwise different codes |
| Location.SupportedNamesDistinct | src/lib/location.ts:27-118 | pairwise different names |
| Location.TableComplete | src/lib/location.ts:27-118 | every entry lists at least three courts and three specialties |
| Location.FindByCode | src/lib/location.ts:243 | the entry with that code, or none when no entry has it |
| Location.FindByName | src/lib/location.ts:124 | the entry with that name, or none when no entry has it |
| Location.GetJurisdictionInfo | src/lib/location.ts:242-244 | the supported entry with that code, else null |
| Location.InfoOfOwnCode | src/lib/location.ts:242-244 | each entry is found from its own code |
| Location.DefaultIsUnitedStates | src/lib/location.ts:230-240 | the default location is the United States entry with the New York time zone |
| Location.CallerFirst | src/lib/location.ts:123-138 | a supported jurisdiction named by the caller wins over every other source and gives that entry's location |
| Location.SavedSecond | src/lib/location.ts:140-164 | otherwise a supported saved jurisdiction wins over the network |
| Location.UnconfiguredKeyIgnoresService | src/lib/location.ts:167 | a missing or placeholder key means the service is never asked |
| Location.PositionIgnored | src/lib/location.ts:194-220 | a browser position is never reverse-geocoded, so it changes nothing |
| Location.OfflineSupported | src/lib/location.ts:120-228 | unless the service answered, the location is a supported jurisdiction |
| Location.ServiceKnownCountry | src/lib/location.ts:174-187 | a service answer for a supported country takes that entry's name, system and language |
| Location.ServiceUnknownCountry | src/lib/location.ts:174-187 | any other country falls back to common law, English and the service's own name, currency and time zone |
| Location.DetectUserLocation | src/lib/location.ts:120-228 | defines `detectUserLocation` over the caller's jurisdiction, the saved user, the service answer and the browser position |
| Location.DefaultLocation | src/lib/location.ts:230-240 | defines `getDefaultLocation`: the United States, common law, USD, English, New York time |
| Tavus.FirstMatch | src/lib/tavus.ts:140-143 | the index of the first persona with a matching specialization |
| Tavus.PersonaBySpecialization | src/lib/tavus.ts:139-145 | the first matching persona, else the first persona; never null |
| Tavus.WithLanguage | src/lib/tavus.ts:147-149 | keeps exactly the personas of that language |
| Tavus.WithLanguageAppend | src/lib/tavus.ts:148 | the filter works piecewise, so table order is kept |
| Tavus.PersonasByLanguage | src/lib/tavus.ts:147-149 | English has the corporate and criminal lawyers, Spanish the family lawyer, Hindi the immigration lawyer, and every other language none |
| Tavus.OtherLanguagesEnglish | src/lib/tavus.ts:189 | every language but Spanish and Hindi gets the English script |
| Tavus.ScriptQuotes | src/lib/tavus.ts:151-190 | every script contains the question, the analysis and the jurisdiction verbatim |
| Tavus.ConsultationScript | src/lib/tavus.ts:151-190 | defines `generateLegalConsultationScript`: the script of the language, English otherwise |
| ElevenLabs.VoiceId | src/lib/elevenlabs.ts:61-62 | the configured voice of the language and persona, else English professional |
| ElevenLabs.ConfiguredLanguages | src/lib/elevenlabs.ts:7-33 | every configured language has a professional and a friendly voice |
| ElevenLabs.VoiceNeverEmpty | src/lib/elevenlabs.ts:61-62 | a voice id is never empty |
| ElevenLabs.VoiceFallbacks | src/lib/elevenlabs.ts:61-62 | Spanish authoritative and Telugu fall back to English professional |
| ElevenLabs.DefaultVoice | src/lib/elevenlabs.ts:51-52 | with the default language and persona, text-to-speech uses the English professional voice |
| ElevenLabs.LanguageCode | src/lib/elevenlabs.ts:145-157 | `'en-US'` exactly for anything but the seven other listed codes |
| ElevenLabs.LanguageCodePrefix | src/lib/elevenlabs.ts:146-155 | each mapped locale starts with its language code |
| ElevenLabs.InterfaceLanguagesMapped | src/lib/elevenlabs.ts:146-155 | every interface language has a locale of its own |
| ElevenLabs.SpeechRecognizer.constructor | src/lib/elevenlabs.ts:129-143 | not listening, locale from the language |
| ElevenLabs.SpeechRecognizer.StartListening | src/lib/elevenlabs.ts:159-190 | while listening it is rejected and nothing changes; otherwise it listens with handlers installed, and a start failure drops the flag and rejects |
| ElevenLabs.SpeechRecognizer.OnResult | src/lib/elevenlabs.ts:168-172 | the flag drops and the pending promise resolves with the transcript |
| ElevenLabs.SpeechRecognizer.OnError | src/lib/elevenlabs.ts:174-177 | the flag drops and the pending promise is rejected with the error |
| ElevenLabs.SpeechRecognizer.OnEnd | src/lib/elevenlabs.ts:179-181 | the flag drops |
| ElevenLabs.SpeechRecognizer.StopListening | src/lib/elevenlabs.ts:192-197 | the flag is down afterwards |
| ElevenLabs.Settle | src/lib/elevenlabs.ts:168-177 | a promise settles once |
| ElevenLabs.NewRecognizer | src/lib/elevenlabs.ts:131-138 | throws where the browser has no speech recognition |
| ElevenLabs.DictationRound | src/lib/elevenlabs.ts:159-190 | start, a second start is refused, the result arrives, the session ends, and a new start is accepted |
| ElevenLabs.ConfiguredVoice | src/lib/elevenlabs.ts:7-33 | defines the `VOICE_CONFIGS` lookup: only English has configured voices |
| Wrappers.Find | src/lib/location.ts:243 | `Array.prototype.find`: `None` exactly when no element satisfies the test; otherwise an element of the list that satisfies it, with none before it that does |

## Findings

| source | as written | input that shows it | evidently intended | confidence | as-written member | corrected member |
|---|---|---|---|---|---|---|
| src/lib/reddit.ts:247 | the drama meter repeats the four characters U+00F0 U+0178 U+201D U+00A5, the UTF-8 bytes of the fire emoji read as Windows-1252 | any analysis, e.g. entertainment value 10: five copies of the four characters | the fire emoji U+1F525, as `src/hooks/useSueYourEx.ts:32` writes it | not executed | Reddit.ShareableContentAsWritten, Reddit.MeterMismatch | Reddit.ShareableContent, Reddit.ShareTitleShape |
| src/pages/Chat.tsx:191-197 | the start-up effect runs `initializeChat()` before `loadChatSessions()`; the first render has no sessions, so a new chat is created and saved over `chat_sessions_<id>`, and loading reads back only that chat | a signed-in user with two saved chats opens the page: storage then holds one new chat | load the saved sessions first and create a chat only when none were saved | not executed | Chat.OpenChatPage | Chat.OpenChatPageCorrected |
| src/pages/Chat.tsx:282 | `createNewChat` builds its list from the `chatSessions` of the render the delete ran in, which still holds the deleted session | one saved chat, open, deleted: the list and storage hold the new chat and the deleted one | build the new list from the sessions that remain | not executed | Chat.DeleteOnlyChat | Chat.DeleteOnlyChatCorrected |
| src/pages/Documents.tsx:274-277 | the automatic analysis after an upload looks the new id up in the `documents` of the render the upload ran in (line 310), which does not hold the new document, so it returns at once and the document stays pending with no summary and no tags | AI configured, a text file uploaded: it is listed as pending with no tags | analyse the document just uploaded | not executed | Documents.ProcessUpload, Documents.UploadStaysPending | Documents.ProcessUploadCorrected |

## Left out

- Network and SDK calls are replaced by their possible answers:
  - the Algorand SDK, account generation and the private key;
  - `getAccountBalance` and `fundTestnetAccount`;
  - Supabase mode of the credential store;
  - the RevenueCat HTTP paths and `parseRevenueCatResponse`;
  - the Gemini calls, ElevenLabs and Tavus HTTP, Reddit OAuth, and IP and browser
    geolocation.
  - Their internals cannot be seen.
- SHA-256 is uninterpreted, and the UTF-8 encode/decode of the note is the identity on strings.
- Clocks and `Math.random()` are parameters. Local storage, the clipboard, `navigator.share`
  and `FileReader` are values passed in or fields.
- Rendering, toasts, console logging, scrolling and timers are left out: they do not affect
  state.
- Async interleaving is not modelled. Every handler is one sequential step over explicit
  state, so the double `setChatSessions` of `createNewChat` shows only its final list.
  React's stale closures are modelled where they change what is saved or shown: the
  `chatSessions` that `deleteChatSession` hands on to `createNewChat`, and the `documents`
  that the automatic analysis after an upload searches (`Documents.ProcessUpload`). Other
  handlers are modelled as if they saw the latest state. The start-up effect is one run; its
  re-run when the user changes is not modelled.
- Chat storage is the one `chat_sessions_<user id>` entry of the signed-in user. The JSON
  round trip of `saveChatSessions` and `loadChatSessions`, with its `Date` revival, is the
  identity, and an entry `JSON.parse` rejects is not modelled.
- Chat.SessionTitle: the title keeps the first 50 characters as Unicode scalar values, while
  `substring(0, 50)` counts UTF-16 code units. Text outside the Basic Multilingual Plane is
  cut later in the model, and a title ending in half a surrogate pair cannot be represented.
- Chat.ChatPage.DeleteChatSession: the deleted id is promised gone only when another session
  is left or the deleted one was not current, because the source brings it back otherwise
  (see Findings).
- Numbers:
  - Usage counters and percentages are reals, and the session age and the renewal time are
    integers of milliseconds.
  - IEEE floating point is not modelled.
  - `getUsagePercentage` with a zero limit (NaN or Infinity) is not modelled; its contract
    is stated for positive limits.
- Text.Lower: `toLowerCase` and `toUpperCase` act on ASCII letters only; other letters keep their case.
- Documents.Sort: `localeCompare` is modelled as code-point order of the strings.
- JSON details:
  - Objects are insertion-ordered lists. JavaScript's ordering of integer-like keys and
    prototype keys such as `__proto__` are not modelled.
  - Numbers keep their decimal text.
  - Metadata values are JSON values; `undefined` members are not modelled.
- Json.ParseEscape: a `\uD800`-`\uDBFF` escape not followed by a low-surrogate escape, and a
  `\uDC00`-`\uDFFF` escape on its own, make the parse fail, because a Dafny string cannot hold
  a lone surrogate; `JSON.parse` accepts both. A ledger note carrying such an escape is
  therefore reported as `'Verification failed'`, where the source would parse it and compare
  its `documentHash`.
- `useAI.generateDocument` and `playResponseAudio` are left out: they only forward to the
  AI service and the audio player.
- The translation tables are a parameter of `Language.Translate`, not the 400 lines of
  strings.
- `useLanguage` and `useAuth` throwing outside their providers, and `isCurrentlyListening`,
  are left out. The latter is the `isListening` field itself.
- `detectUserLocation` has one branch per data source under a single outer `try`. The model
  takes "no saved user, unreadable JSON, no jurisdiction" as one `None`.
- Algorand.NotarizeDocument: a transaction that was submitted but not confirmed within four
  rounds may still confirm later on a real network. The model leaves it off the ledger,
  because the application never looks at it again and reports a `DEMO_` id instead.
