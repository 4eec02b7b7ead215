# Guardian app: verified model

This project models five stateful parts of the guardian app and proves what
their protocols keep over every run. The first two carry most of the weight.

1. **Guardian ask inbox** (`ChildAsk*.dfy`). A child asks, the guardian
   answers, and the answer is written down before anything else happens: then a
   rule is saved or the device ceiling pushed, the verdict is saved, and only
   then published; approved-once entries are given back when publishing fails.
   An answer in progress is cut at every await of `decide`. Between two awaits
   anything may arrive: asks, rail replies from a second guardian device,
   expiry, other answers, a reload. `ChildAsks.dfy` has the handlers as
   functions on the refs, `ChildAskRun.dfy` runs them against the stored row,
   the rule store, the ceiling pusher and the relay, and `ChildAskInbox.dfy`
   performs them on the fields of one object.
2. **NIP-46 bunker server** (`Bunker*.dfy`). The checks on the way in and the
   replay window, the dispatcher with its owner and dependant policies, the
   grants and rows it writes (whole handlers in `BunkerStore.dfy`, interleaved
   at their awaits in `BunkerInterleaving.dfy`), the approval queue with its
   handles and generations, and the reply outbox that outlives sockets but not
   teardowns.
3. **Child activity publisher** (`Activity*.dfy`, `ConnectedApps.dfy`). The
   bounded queue, its flushes and timer, and the merge of connected apps.
4. **Blob housekeeping in the profile editor** (`BlobHousekeeping.dfy`,
   `ProfileEditor.dfy`). Which uploaded pictures are deleted, and when.
5. **Backdrop URL cache** (`CardBackdrop.dfy`). Object URLs under racing reads
   and writes.

Each stateful part has functions that say what one step does, invariants and
theorems over all runs of those steps, and a class whose methods change the
fields in place, make exactly those steps and keep the invariants those runs
have as the class's `Valid()`.

`dafny verify dfyconfig.toml` checks the project.

## How the outside appears

- Storage, relay, signer, pusher and parent callbacks are events that settle
  with success or failure at any later moment. Fresh event ids and object URLs
  are assumed never to repeat.
- Library functions (`resolvePolicy`, `intersectSchedules`, `isWithinSchedule`,
  `inferScope`, `nip46PermissionAllows`, `compileChildDirectPolicy` and the
  like) are function-valued fields of a `Lib` value, with nothing assumed about
  them.
- Time is a parameter of the event that reads it.

## Findings

- A failed load of the ask history lets a live ask be answered differently from
  the unsent answer already stored for it
  (`ChildAskChoice.OnlyAFailedLoadForgets`), and the first answer after it
  replaces the whole stored history
  (`ChildAskForget.AFailedLoadLosesTheHistory` over every run,
  `ChildAskChoice.TheFirstAnswerReplacesTheHistory` for the first answer).
- A request is left without any answer when a read outside every `try` is
  rejected, and gets a second, contradicting reply when the write after its
  reply is; `BunkerPolicy.Unanswered` and `BunkerPolicy.AnsweredTwice` say
  exactly when, and `BunkerCases.ARejectedReadGoesUnanswered`,
  `BunkerCases.OwnerCryptoIsAnsweredTwice`,
  `BunkerCases.OwnerSignatureIsAnsweredTwice` and
  `BunkerCases.StoredAllowIsAnsweredTwice` give inputs.
- An app pairing whose callback throws an error with an empty message is
  acknowledged as if it had been stored (`BunkerPolicy.ConnectAcksExactlyThePaired`,
  with an input in `BunkerCases.AFailedAppPairingIsAcknowledged`).
- A remembered deny can be overwritten by an allow that another handler looked
  up before the deny landed (`BunkerGrants.DenyIsStickyIff` and
  `BunkerInterleaving.ADenyHoldsIff` say exactly when, with runs in
  `BunkerGrants.AStaleAllowOverwritesADeny` and
  `BunkerInterleaving.AStaleAllowOverwritesADeny`).
- The Save button of the profile form stays enabled while an upload is under
  way, and the form can be left during a save. Either can delete a blob the
  save is storing (`BlobHousekeeping.UploadDuringASave`,
  `BlobHousekeeping.LeavingDuringASave`, with runs in
  `BlobHousekeeping.AnUploadCanKillASave` and
  `BlobHousekeeping.LeavingCanKillASave`); an upload that settles during a
  save can also lose its own blob while the form still shows it
  (`BlobHousekeeping.SavingWhileTheFormMoved`, with a run in
  `BlobHousekeeping.AnUploadCanLoseItself`).
- A save decides what to delete by the publication state at the tap. When
  publication is switched on before the save settles, a blob the published
  profile shows is deleted without waiting for the republish
  (`BlobHousekeeping.ReplacedBlobsWaitForTheRepublish` says exactly when, with a
  run in `BlobHousekeeping.SwitchingOnDuringASaveDeletesALiveBlob`).
- The activity publisher's header says the oldest entry is dropped on overflow;
  a batch put back after a failed publish drops the newest instead,
  exactly when batch and queue together exceed 200
  (`Activity.RequeueOverflowsNewest`, with a run in
  `Activity.ABatchPutBackCanDropTheNewest`). The code is what is modelled.

## Model

| member | source | states |
|---|---|---|
| `ChildAskChoice.ChoiceIsWrittenAheadAndStable` | src/hooks/useChildAsks.ts:392-430 | In every run with reloads and failures at any await: when a rule save, a ceiling push or a publish is issued for an ask, the stored row already holds its choice; any two effects for one ask see the same choice; every published verdict is that choice or a deny. Holds for asks whose row was neither evicted nor missed by a failed load |
| `ChildAskChoice.EvictedWhenFull` | src/hooks/useChildAsks.ts:277-284 | Recording pushes out at most one row, the oldest, and only of a full list of 200 |
| `ChildAskChoice.OnlyAFailedLoadForgets` | src/hooks/useChildAsks.ts:256-270 | With an unsent answer stored for a live ask, a different answer is accepted after a reload exactly when the history load failed (and, for an always, when the child's stage offers one for this ask); for every kind of ask and every stage |
| `ChildAskForget.AFailedLoadLosesTheHistory` | src/hooks/useChildAsks.ts:256-284 | After a failed load, over every run until the next reload: every row queued or stored since names only asks that arrived since, so the first save that lands loses whatever was stored about any other ask |
| `ChildAskChoice.TheFirstAnswerReplacesTheHistory` | src/hooks/useChildAsks.ts:268-284 | The first answer after a failed load is saved as the whole history, and once that save lands no other stored row is left |
| `ChildAskChoice.StepStable` | src/hooks/useChildAsks.ts:277-284 | Every event keeps the stored row, the queued saves and the memory in agreement with the committed choices |
| `ChildAskChoice.StepEffects` | src/hooks/useChildAsks.ts:511-540 | Every call an event issues finds its choice in the stored row |
| `ChildAskTheorems.ApprovalIsBackedByTheDevice` | src/hooks/useChildAsks.ts:430-509 | A published once or always of a signature ask was preceded in the same attempt by a successful push for an unpaused child, whose checked ceiling lists the ask's kind and every kind it listed before; anything else goes out as a deny; alsoOpened names the seal exactly when that push opened it besides the ask's own kind |
| `ChildAskTheorems.PushComesBeforePublish` | src/hooks/useChildAsks.ts:447-528 | An approval that is about to be built and published already has its backing push, and has published nothing yet |
| `ChildAskTheorems.SavedRulesMatchTheAsk` | src/hooks/useChildAsks.ts:435-477 | A rule is saved only for the held choice: an allow only for an always, a deny only for a deny, for exactly the ask's persona, scope and target, with a bounded permission only on an allow |
| `ChildAskTheorems.OnceEntriesAreConserved` | src/hooks/useChildAsks.ts:515-533 | An attempt that is over leaves in the approved-once ledger exactly its own entries if its verdict was acknowledged and nothing otherwise, except exactly when the entries could not be given back |
| `ChildAskTheorems.AnsweredAtMostOnce` | src/hooks/useChildAsks.ts:520-536 | Within one unlock no ask is acknowledged twice |
| `ChildAskTheorems.ListIsConsistent` | src/hooks/useChildAsks.ts:329-353 | Every listed ask is listed once, seen, marked unsent exactly with the answer held for it, and no dependant has more than 32 listed |
| `ChildAskTheorems.RemovedStaysRemoved` | src/hooks/useChildAsks.ts:287-295 | An ask that left the list is not listed again before a reload, whatever happens |
| `ChildAskTheorems.RailReplyStopsThePublish` | src/hooks/useChildAsks.ts:520-522 | Once a rail reply is recorded for an ask and no answer to it is being built or published, no run without a reload publishes a verdict for it any more: not the answer in progress, not a later tap |
| `ChildAskTheorems.StepAcks` | src/hooks/useChildAsks.ts:534-536 | Every event keeps acknowledged asks off the list and out of any further publish |
| `ChildAskAccounts.StepAccounts` | src/hooks/useChildAsks.ts:447-533 | Every event keeps each attempt's push, ledger entries, published verdict and acknowledgement in agreement with where the attempt stands |
| `ChildAskAccounts.AlwaysReady` | src/hooks/useChildAsks.ts:455-487 | An always that passes the ceiling check is backed by the widening it pushes, its seal entry included |
| `ChildAskAccounts.OnceReady` | src/hooks/useChildAsks.ts:488-507 | A once that passes the ceiling check is backed by the widening it pushes, and reports the seal exactly when it opens it |
| `ChildAskAccounts.WorkInFlight` | src/hooks/useChildAsks.ts:422-446 | A send again starts with a clean account (no push, no entries, no stale alsoOpened), and with the guardian's own choice and no reason when it had been converted to a deny |
| `ChildAskRun.StepKeepsRefs` | src/hooks/useChildAsks.ts:287-353 | Every event keeps the refs consistent: list, seen ids, markers, held answers, answers in progress, row and queued saves |
| `ChildAskRefs.RecordKeeps` | src/hooks/useChildAsks.ts:277-284 | Writing one entry keeps the row unique, capped and in agreement with the rest of the memory |
| `ChildAskRefs.MarkAnsweredKeeps` | src/hooks/useChildAsks.ts:287-295 | Marking an ask answered unlists it, drops its held answer and records it as sent, keeping the memory consistent |
| `ChildAskRefs.SaveOutcomeKeeps` | src/hooks/useChildAsks.ts:511-513 | Holding and recording the verdict before it is published keeps the memory consistent |
| `ChildAskRefs.OnReplyKeeps` | src/hooks/useChildAsks.ts:319-327 | A rail reply keeps the memory consistent, whether or not an answer is in progress |
| `ChildAskRefs.OnAskKeeps` | src/hooks/useChildAsks.ts:329-353 | An arriving ask keeps the memory consistent and the live limit unbroken |
| `ChildAskRefs.OnExpiryKeeps` | src/hooks/useChildAsks.ts:356-366 | Expiry keeps the memory consistent |
| `ChildAskRefs.OnLoadKeeps` | src/hooks/useChildAsks.ts:256-270 | Loading the stored row yields consistent memory: unsent live answers held, every other id seen |
| `ChildAskRun.TapKeeps` | src/hooks/useChildAsks.ts:373-420 | A tap keeps the memory consistent in every branch, refusals included |
| `ChildAskRun.WorkKeeps` | src/hooks/useChildAsks.ts:422-446 | Starting the side effects of a durable choice, new or sent again, keeps the memory consistent |
| `ChildAskRun.NotSentKeeps` | src/hooks/useChildAsks.ts:515-519 | Giving the entries back after a failed publish, or ending when there is nothing to give back, keeps the memory consistent |
| `ChildAskRun.SaveSettledKeeps` | src/hooks/useChildAsks.ts:407-421 | A settled save resumes whoever awaited it and keeps the memory consistent, failures included |
| `ChildAskRun.RulesListedKeeps` | src/hooks/useChildAsks.ts:447-507 | Every branch of the allow path keeps the memory consistent |
| `ChildAskRun.PublishSettledKeeps` | src/hooks/useChildAsks.ts:529-536 | A settled publish keeps the memory consistent, acknowledged or not |
| `ChildAskInbox.AskInbox.constructor` | src/hooks/useChildAsks.ts:244-255 | A new hook holds the empty memory |
| `ChildAskInbox.AskInbox.Clear` | src/hooks/useChildAsks.ts:246-255 | A new unlock empties the memory and keeps it consistent |
| `ChildAskInbox.AskInbox.Load` | src/hooks/useChildAsks.ts:256-271 | The loading loop leaves exactly the held and seen ids the row implies; a failed load leaves the memory empty; keeps the invariant |
| `ChildAskInbox.AskInbox.OnReplyEvent` | src/hooks/useChildAsks.ts:319-327 | In place, the effect of a rail reply; keeps the invariant |
| `ChildAskInbox.AskInbox.OnAskEvent` | src/hooks/useChildAsks.ts:329-353 | In place, the effect of an arriving ask; keeps the invariant |
| `ChildAskInbox.AskInbox.OnExpiryTimer` | src/hooks/useChildAsks.ts:356-366 | Drops exactly the expired asks; keeps the invariant |
| `ChildAskInbox.AskInbox.Decide` | src/hooks/useChildAsks.ts:373-420 | The tap in place, with the reason it gives when it starts nothing; keeps the invariant |
| `ChildAskInbox.AskInbox.OnSaveSettled` | src/hooks/useChildAsks.ts:407-421 | Resumes the attempt that awaited the oldest save; keeps the invariant |
| `ChildAskInbox.AskInbox.OnRulesListed` | src/hooks/useChildAsks.ts:447-507 | The allow path up to its next await, in every branch; keeps the invariant |
| `ChildAskInbox.AskInbox.OnRuleSaved` | src/hooks/useChildAsks.ts:436-444 | The deny rule or the allow rule settled, stored or not; keeps the invariant |
| `ChildAskInbox.AskInbox.OnCeilingPushed` | src/hooks/useChildAsks.ts:478-507 | The push settled: converted to a deny, or its entries and seal reported; keeps the invariant |
| `ChildAskInbox.AskInbox.OnVerdictBuilt` | src/hooks/useChildAsks.ts:524-528 | The verdict event built or not; keeps the invariant |
| `ChildAskInbox.AskInbox.OnPublished` | src/hooks/useChildAsks.ts:529-536 | The publish settled: given back, or unlisted and recorded as sent; keeps the invariant |
| `ChildAskInbox.AskInbox.OnGaveBack` | src/hooks/useChildAsks.ts:515-522 | The give-back settled; the rail answer, if any, is recorded; keeps the invariant |
| `BunkerIntake.WindowIsTheLastHandled` | src/hooks/useBunkerServer.ts:612-711 | Over every run and re-subscription the handled-id window is the last min(n, 1000) handled ids in handling order, all distinct |
| `BunkerIntake.RecentIsDropped` | src/hooks/useBunkerServer.ts:698-711 | An id among the last thousand handled changes nothing when it arrives again |
| `BunkerIntake.ExactlyTheGenuineAreHandled` | src/hooks/useBunkerServer.ts:653-711 | Whatever a relay sends, the ids handled are exactly those of the envelopes that are fresh, verified, addressed to one served key and not authored by this app; the window is the last thousand of them |
| `BunkerIntake.ConstantTimeEqual` | src/hooks/useBunkerServer.ts:381-391 | The accumulating comparison is equality of byte strings, in as many rounds as the longer one has bytes |
| `BunkerIntake.SwitchingSettles` | src/hooks/useBunkerServer.ts:99-106 | The switch_relays answer leads with the persistent relay, keeps the live one, holds only valid relays, is null exactly in the three cases that need no change, and is null when asked again over its first relay |
| `BunkerPolicy.TotalDispatch` | src/hooks/useBunkerServer.ts:729-1640 | Every request gets exactly one reply or one place in the queue, never both; none exactly when an unguarded read on its path was rejected, two replies exactly when the write after its reply was; at most one signer call |
| `BunkerPolicy.OneAnswerWhenNothingThrows` | src/hooks/useBunkerServer.ts:729-1640 | With no awaited call rejected: exactly one reply, or exactly one queue entry and no reply |
| `BunkerPolicy.CryptoAnswers` | src/hooks/useBunkerServer.ts:1061-1242 | Silent encryption and decryption answer once, with the exact conditions for none and for two; they never sign, queue or write a grant |
| `BunkerPolicy.LadderRefinesTheRule` | src/hooks/useBunkerServer.ts:1391-1600 | A dependant event is signed with no tap exactly when the declarative rule allows it, queued exactly when it must be asked, and otherwise refused; what is signed is the template asked for |
| `BunkerPolicy.ClimbRules` | src/hooks/useBunkerServer.ts:1464-1600 | Which rung decides, as order-free conditions on the grant, the intersected schedule and the stage |
| `BunkerPolicy.OnlyConsideredIsSigned` | src/hooks/useBunkerServer.ts:1247-1320 | Nothing is signed or queued except an accepted template that passed every check before it |
| `BunkerPolicy.SilentSignaturesAreAudited` | src/hooks/useBunkerServer.ts:1443-1600 | Every silent dependant signature leaves one audit record, except exactly a stage policy of pure auto with no grant and no pre-authorisation |
| `BunkerPolicy.OwnerSilentSignatures` | src/hooks/useBunkerServer.ts:1346-1385 | An owner route signs silently exactly for a remembered client, within its permissions, for a matching pubkey and nothing sensitive; it queues exactly the rest it allows |
| `BunkerPolicy.ConnectAcksExactlyThePaired` | src/hooks/useBunkerServer.ts:790-907 | A dependant route acknowledges a connect exactly for a client already paired, or one with the open secret whose binding was stored while no other was under way (or whose app binding failed with an empty message) |
| `BunkerPolicy.SilentCryptoExactly` | src/hooks/useBunkerServer.ts:1061-1230 | A silent encryption or decryption is answered with a result exactly when the parameters are well formed, the owner row or the dependant's rate, schedule and null-scope policy allow it, and the key does it |
| `BunkerPolicy.OutsidersGetErrors` | src/hooks/useBunkerServer.ts:746-1015 | A request stopped before its method gets errors only: nothing signed, nothing queued |
| `BunkerCases.ARejectedReadGoesUnanswered` | src/hooks/useBunkerServer.ts:754-760 | An input left without any reply: the ceiling read is rejected |
| `BunkerCases.OwnerCryptoIsAnsweredTwice` | src/hooks/useBunkerServer.ts:1215-1240 | An owner's encryption answered with its result and then with "encryption failed" |
| `BunkerCases.OwnerSignatureIsAnsweredTwice` | src/hooks/useBunkerServer.ts:1372-1384 | A silent owner signature followed by "signing failed" |
| `BunkerCases.StoredAllowIsAnsweredTwice` | src/hooks/useBunkerServer.ts:1529-1546 | A signature under a remembered allow followed by "signing failed" |
| `BunkerCases.AFailedAppPairingIsAcknowledged` | src/hooks/useBunkerServer.ts:830-848 | An app pairing that failed with an empty message, acknowledged |
| `BunkerStore.DispatchWrites` | src/hooks/useBunkerServer.ts:1374-1379 | A request writes a client row only to move lastSeenAt and a grant only to move the lastUsedAt of an allow it just read |
| `BunkerStore.CeilingsAndDenialsLast` | src/hooks/useBunkerServer.ts:1736-1785 | Over every run of requests and decided approvals a client row keeps its permissions while it does not log out, and a remembered deny is never replaced by an allow |
| `BunkerStore.SilentSignaturesStayInTheCeiling` | src/hooks/useBunkerServer.ts:1363-1385 | After any such run a silent owner signature is within the permissions stored at its start, not sensitive and for the right pubkey |
| `BunkerStore.ApprovalsRecheckTheCeiling` | src/hooks/useBunkerServer.ts:1690-1711 | An approval signs exactly when it is not a deny, the row stored then allows the kind, and a ceremony was confirmed |
| `BunkerStore.RequestsUse` | src/hooks/useBunkerServer.ts:1528-1536 | The grant a request writes is the use of an allow it read: same key, still an allow |
| `BunkerStore.ApprovalsDenyOrPromote` | src/hooks/useBunkerServer.ts:1658-1768 | The grant a tap writes is a deny, exactly when one is to be remembered, or a promotion to allow where no deny was read, both under the key of the request |
| `BunkerGrants.DenyIsStickyIff` | src/hooks/useBunkerServer.ts:1529-1768 | At await granularity a remembered deny survives every continuation exactly when no handler is between its lookup of that key and the allow it will save |
| `BunkerGrants.UnthreatenedStaysDenied` | src/hooks/useBunkerServer.ts:1743-1768 | With no such handler, no sequence of lookups and saves replaces the deny |
| `BunkerGrants.ThreatenedCanFlip` | src/hooks/useBunkerServer.ts:1529-1534 | With one, a continuation that replaces the deny |
| `BunkerGrants.AStaleAllowOverwritesADeny` | src/hooks/useBunkerServer.ts:1529-1534 | From a remembered allow and nothing under way, a run to a denied and threatened key and on to an allowed one |
| `BunkerInterleaving.StepSimulates` | src/hooks/useBunkerServer.ts:1464-1768 | Every step of the request and tap handlers at their awaits is a step of the grants machine |
| `BunkerInterleaving.EveryInterleavingIsARun` | src/hooks/useBunkerServer.ts:1464-1768 | Every interleaving of requests and taps at their awaits, saves that land or fail included, is a run of the grants machine |
| `BunkerInterleaving.ADenyHoldsIff` | src/hooks/useBunkerServer.ts:1464-1768 | Over every such interleaving a remembered deny holds exactly when no handler has already decided to save an allow under its key |
| `BunkerInterleaving.AStaleAllowOverwritesADeny` | src/hooks/useBunkerServer.ts:1464-1534 | A request and a deny of the same site, by their own handlers, after which the site is allowed |
| `BunkerApprovals.SignedAtMostOnce` | src/hooks/useBunkerServer.ts:1643-1721 | Under every interleaving the signer is called at most once per handle |
| `BunkerApprovals.HandlesAreNeverReused` | src/hooks/useBunkerServer.ts:1607-1616 | A new request gets a handle that was never waiting, in progress, signed for or published |
| `BunkerApprovals.SignaturesKeepTheirGeneration` | src/hooks/useBunkerServer.ts:623-650 | An approved signature enters the outbox only in the generation of its tap, and only after the signer was called for it |
| `BunkerApprovals.TeardownCutsOff` | src/hooks/useBunkerServer.ts:1944-1955 | After a teardown that is not a reconnect no handle issued before it puts a signature, a denial or a signing failure into the outbox, whatever is tapped or still under way |
| `BunkerApprovals.WhatCrossesATeardown` | src/hooks/useBunkerServer.ts:1690-1694 | A handle issued before a full teardown can still be answered after it exactly when it had been tapped and its ceiling not yet read again |
| `BunkerApprovals.ReconnectsKeepTheSignature` | src/hooks/useBunkerServer.ts:1643-1721 | A signature under way survives every run without a full teardown, whatever reconnects and other requests come between: it enters the outbox in the generation of its tap |
| `BunkerApprovals.StepKeeps` | src/hooks/useBunkerServer.ts:1643-1730 | Every event keeps the queue invariant |
| `BunkerOutbox.SentOncePerSocket` | src/hooks/useBunkerServer.ts:534-556 | Over every run no reply goes out twice on one socket and at most 256 are held |
| `BunkerOutbox.NeverAfterOk` | src/hooks/useBunkerServer.ts:1906-1911 | After its relay OK, accepting or rejecting, a reply is never sent or held again |
| `BunkerOutbox.LeavesOnlyBy` | src/hooks/useBunkerServer.ts:630-648 | A held reply leaves only by its OK, its expiry or a teardown that is not a reconnect |
| `BunkerOutbox.NewSocketGetsEverything` | src/hooks/useBunkerServer.ts:1869-1882 | In every run, whatever is published or confirmed while a socket connects, its opening sends exactly the unexpired held replies in order, up to the first whose send throws |
| `BunkerOutbox.NewSocketCarriesTheLive` | src/hooks/useBunkerServer.ts:1869-1882 | When no send throws, a new socket carries a reply, and keeps it held, exactly when it was held and unexpired |
| `BunkerOutbox.DialledIsBlank` | src/hooks/useBunkerServer.ts:1850-1867 | A socket just dialled has carried nothing and marked no reply |
| `BunkerOutbox.StaysBlank` | src/hooks/useBunkerServer.ts:534-556 | Replies published, confirmed or expired while the socket connects leave it blank |
| `BunkerOutbox.FlushOne` | src/hooks/useBunkerServer.ts:534-556 | What one flush does to one reply: kept, dropped as expired, sent once, or marked when its send threw |
| `BunkerOutbox.StepKeeps` | src/hooks/useBunkerServer.ts:623-650 | Every event keeps the outbox invariant and only extends what was sent |
| `BunkerServer.Server.constructor` | src/hooks/useBunkerServer.ts:515-612 | An empty server, in the invariant of all three machines |
| `BunkerServer.Server.FirstSeen` | src/hooks/useBunkerServer.ts:698-711 | Marks an id and keeps the window at 1000; true exactly for an id not in it |
| `BunkerServer.Server.FlushResponses` | src/hooks/useBunkerServer.ts:534-556 | The flush loop over the held replies equals the specified flush |
| `BunkerServer.Server.DropExpired` | src/hooks/useBunkerServer.ts:633-635 | The expiry loop keeps exactly the unexpired replies, in order |
| `BunkerServer.Server.PublishResponse` | src/hooks/useBunkerServer.ts:623-650 | Expires, respects the cap, stores and flushes; at most 256 held, nothing sent is taken back; keeps the invariant |
| `BunkerServer.Server.OnOpen` | src/hooks/useBunkerServer.ts:1869-1882 | Opens and flushes: a blank socket carries the live replies up to the first failed send; keeps the invariant |
| `BunkerServer.Server.Enqueue` | src/hooks/useBunkerServer.ts:1607-1616 | Issues a handle that was never waiting, in progress or signed for; keeps the invariant |
| `BunkerServer.Server.Resolve` | src/hooks/useBunkerServer.ts:1643-1652 | Takes the request out of the map, so a second tap does nothing; keeps the invariant |
| `BunkerServer.Server.OnClientRead` | src/hooks/useBunkerServer.ts:1690-1718 | The signer is called exactly when the ceiling read then allows it and no ceremony is due, and never before for this handle; keeps the invariant |
| `BunkerServer.Server.OnConfirmed` | src/hooks/useBunkerServer.ts:1700-1718 | A confirmed ceremony calls the signer, once; keeps the invariant |
| `BunkerServer.Server.OnReplyBuilt` | src/hooks/useBunkerServer.ts:623-650 | A built reply enters the outbox exactly when no teardown came between and there is room; keeps the invariant of both machines |
| `BunkerServer.Server.Teardown` | src/hooks/useBunkerServer.ts:1936-1965 | A reconnect loses no reply and no request; a full teardown cuts off every handle issued so far; keeps the invariant |
| `Activity.NothingIsReorderedOrStalls` | src/hooks/useChildActivityPublisher.ts:93-148 | In every run of one pairing: acknowledged, in flight and queued entries are together a sub-list of the accepted reports; every other accepted report is accounted for as overflow or unwrappable; the queue never exceeds 200; a non-empty queue has a timer or a flush |
| `Activity.ReportOverflowsOldest` | src/hooks/useChildActivityPublisher.ts:136-148 | A report overflows only a full queue and then drops exactly the oldest entry |
| `Activity.RequeueOverflowsNewest` | src/hooks/useChildActivityPublisher.ts:117-122 | A batch put back keeps its own entries in front; past 200 it drops exactly the newest queued entries that do not fit, and otherwise none |
| `Activity.ABatchPutBackCanDropTheNewest` | src/hooks/useChildActivityPublisher.ts:117-122 | A run in which the last accepted report is dropped and every older one kept |
| `Activity.StepConserves` | src/hooks/useChildActivityPublisher.ts:104-128 | Every event keeps order, conservation and the timer |
| `ActivityRate.AtMost120AMinute` | src/hooks/useChildActivityPublisher.ts:98-148 | Successive flush starts are 5000 ms apart, so any half-open minute holds at most 12 starts whose flushes attempt at most 120 publishes, re-pairings included |
| `ActivityRate.StepPaces` | src/hooks/useChildActivityPublisher.ts:98-134 | Every event, a new pairing included, keeps flush starts apart and counts their publishes |
| `ActivityRate.AtMostTwelve` | src/hooks/useChildActivityPublisher.ts:98-128 | Starts 5 s apart put at most 12 in any half-open minute |
| `ActivityRate.BlockedOnceAMinute` | src/hooks/useChildActivityPublisher.ts:138-144 | Within one pairing two accepted blocked reports of one key are a minute apart |
| `ConnectedApps.MergeConnectedApps` | src/hooks/useChildActivityPublisher.ts:63-72 | The one-pass merge computes the specified merge |
| `ConnectedApps.MergeIsTheNewest64` | src/hooks/useChildActivityPublisher.ts:62-72 | Unique ids, newest first, at most 64; each kept app has the smallest firstSeen, the largest lastUsed and its newest entry's fields; an app with an entry is missing only from a full list of apps at least as recent |
| `ConnectedApps.FoldedAt` | src/hooks/useChildActivityPublisher.ts:64-70 | What the map holds for one app, from all of its entries |
| `ConnectedApps.UnionIsCommutativeAndAssociative` | src/hooks/useChildActivityPublisher.ts:62-72 | Uncapped, merging is commutative and associative in firstSeen and lastUsed |
| `ConnectedApps.CappingEarlyIsHarmless` | src/hooks/useChildActivityPublisher.ts:171-177 | With distinct lastUsed values, capping one merge before the next changes neither the surviving ids nor their lastUsed |
| `ConnectedApps.PublishDropsOnlyByCap` | src/hooks/useChildActivityPublisher.ts:189-202 | A publish leaves out a remotely recorded app only when 64 apps at least as recent are kept |
| `ActivityQueue.Publisher.constructor` | src/hooks/useChildActivityPublisher.ts:93-96 | A new pairing, in the invariant |
| `ActivityQueue.Publisher.Report` | src/hooks/useChildActivityPublisher.ts:136-148 | An accepted report is the newest of at most 200 and a timer will flush it; keeps order, conservation and pace |
| `ActivityQueue.Publisher.OnTimer` | src/hooks/useChildActivityPublisher.ts:104-110 | The timer takes a batch when there is one; keeps order, conservation and pace |
| `ActivityQueue.Publisher.OnWrapped` | src/hooks/useChildActivityPublisher.ts:113-114 | A wrap settles without touching the queue or what was acknowledged; keeps order, conservation and pace |
| `ActivityQueue.Publisher.OnPublished` | src/hooks/useChildActivityPublisher.ts:115-123 | A success is acknowledged; a failed entry is the head of the queue again; keeps order, conservation and pace |
| `BlobHousekeeping.SweepSparesWhatIsUsed` | src/components/SlotProfileFields.tsx:241-277 | Over every editing session, and whatever settles after the form is left, the silent sweep never asks to delete a hash the published base shows (as far as the mounted form knew it), the opening config named (unless openly deleted since) or the stored config names, except a save already stored that has yet to settle, which the parent refuses |
| `BlobHousekeeping.ReplacedBlobsWaitForTheRepublish` | src/components/SlotProfileFields.tsx:488-512 | With a stored base, an open deletion names a blob it shows exactly when onPublishNow has just succeeded, or when a save settles that had decided earlier: not published when Save was tapped, or published and the form left since with an outdated ref; only then is a blob deleted that the profile shows afterwards |
| `BlobHousekeeping.QuietSessionsStayAlive` | src/components/SlotProfileFields.tsx:461-517 | If no upload settles during a save or a republish of the open form, nothing is edited or saved behind the open prompt and nobody leaves during a save, no blob the stored config or the form names is ever deleted, also by what settles after leaving |
| `BlobHousekeeping.UploadDuringASave` | src/components/SlotProfileFields.tsx:380-402 | An upload settling during a save is harmless exactly when it pushes out no fresh upload that the save is writing |
| `BlobHousekeeping.LeavingDuringASave` | src/components/SlotProfileFields.tsx:279-282 | Leaving during a save is harmless exactly when the save writes no fresh upload, or is stored already; so it is, too, once that save has landed and settled |
| `BlobHousekeeping.SavingWhileTheFormMoved` | src/components/SlotProfileFields.tsx:480-512 | A settled save spares what the form shows exactly when that was saved, or is neither a fresh upload nor retired under the publication state captured at the tap |
| `BlobHousekeeping.RepublishingWhileTheFormMoved` | src/components/SlotProfileFields.tsx:519-536 | A republish spares what the form shows and a save writes exactly when neither uses one of the old blobs again |
| `BlobHousekeeping.AnUploadCanKillASave` | src/components/SlotProfileFields.tsx:380-402 | A run in which the stored banner is deleted by an upload that settles during its save |
| `BlobHousekeeping.LeavingCanKillASave` | src/components/SlotProfileFields.tsx:279-282 | A run in which the form is left during a save and the banner the parent stores is deleted |
| `BlobHousekeeping.AnUploadCanLoseItself` | src/components/SlotProfileFields.tsx:480-487 | A run in which an upload settles during a save and is then deleted while the form shows it |
| `BlobHousekeeping.SwitchingOnDuringASaveDeletesALiveBlob` | src/components/SlotProfileFields.tsx:493-511 | A run in which publication is switched on during a save and the settled save deletes the banner the published base shows |
| `BlobHousekeeping.StepSafe` | src/components/SlotProfileFields.tsx:241-266 | Every event keeps the refs in agreement with what is stored outside |
| `ProfileEditor.Housekeeping.constructor` | src/components/SlotProfileFields.tsx:241-252 | The form opens on the stored config |
| `ProfileEditor.Housekeeping.SweepOrphans` | src/components/SlotProfileFields.tsx:268-277 | The sweep loop deletes exactly the unreferenced, non-durable session uploads |
| `ProfileEditor.Housekeeping.OnUploaded` | src/components/SlotProfileFields.tsx:380-402 | An upload settles: its blob is there and in the form, and no unreferenced upload is kept; keeps the invariant |
| `ProfileEditor.Housekeeping.OnCleared` | src/components/SlotProfileFields.tsx:404-419 | A paste or a removal leaves only referenced uploads; keeps the invariant |
| `ProfileEditor.Housekeeping.HandleSave` | src/components/SlotProfileFields.tsx:461-480 | A save deletes nothing yet and captures what it replaces and the publication state; keeps the invariant |
| `ProfileEditor.Housekeeping.DeleteBlobs` | src/components/SlotProfileFields.tsx:433-446 | The deletion loop deletes exactly what no stored config names |
| `ProfileEditor.Housekeeping.OnSaveSettled` | src/components/SlotProfileFields.tsx:480-517 | A settled save, stored or not; a stored one leaves no session upload; keeps the invariant |
| `ProfileEditor.Housekeeping.RetireReplaced` | src/components/SlotProfileFields.tsx:488-511 | Replaced blobs go, wait or stay by what the tap captured; with a stored base none it shows is among those that go |
| `ProfileEditor.Housekeeping.OnRepublished` | src/components/SlotProfileFields.tsx:519-536 | A republish settles: only a successful one deletes, and the base is then what is stored; keeps the invariant |
| `ProfileEditor.Housekeeping.Leave` | src/components/SlotProfileFields.tsx:279-282 | Leaving deletes what only the form named; keeps the invariant |
| `CardBackdrop.UrlsAreConserved` | src/hooks/useCardBackdrop.ts:17-50 | Under any interleaving the unrevoked URLs are exactly the cached ones and those held by unsettled loads, each with one owner, and none is revoked twice |
| `CardBackdrop.ReadsNeverReplace` | src/hooks/useCardBackdrop.ts:34-39 | A cached value changes only by a write to its identity, whatever reads are in flight |
| `CardBackdrop.LosingReadIsReleased` | src/hooks/useCardBackdrop.ts:36-37 | The URL of a read that lost to a write is revoked and the cache kept |
| `CardBackdrop.StepKeeps` | src/hooks/useCardBackdrop.ts:26-50 | Every event keeps ownership exact |
| `CardBackdrop.BackdropCache.constructor` | src/hooks/useCardBackdrop.ts:18-19 | Empty maps |
| `CardBackdrop.BackdropCache.Load` | src/hooks/useCardBackdrop.ts:26-43 | The cached value, the running load or a new one; keeps ownership exact |
| `CardBackdrop.BackdropCache.OnSettle` | src/hooks/useCardBackdrop.ts:34-39 | A settling load never replaces a write, and returns what is then cached; keeps ownership exact |
| `CardBackdrop.BackdropCache.Remember` | src/hooks/useCardBackdrop.ts:45-50 | A write is shown and what it replaces is released; keeps ownership exact |

## Left out

- User interface, layout, gestures, camera and QR decoding, carousel and card painting.
- Cryptography, WebSocket and IndexedDB internals, NIP-44 and NIP-59 wrapping: calls that succeed or fail.
- The bodies of the library functions, including the rate limiter's window and the policy matrix.
- Bot routes and the child gate's own decision: opaque; a gated route's outcome is a parameter of the dispatch.
- React rendering: refs are fields and effects are steps; a parent handing in new options or a new config is an event.
- Ask inbox: history saves are applied in the order they were issued, and a reload drops those that have not landed; locking in the middle of an attempt is not modelled.
- Ask inbox: the first stored row is one this code could have written (ids unique, at most 200 rows, an unsent row names its choice and holds that choice or a deny); rows from other writers are not covered.
- Ask inbox: a throwing ceiling pusher, and the value `decide` finally resolves to after its first await, are not modelled; the reason a tap is refused at once is.
- Ask inbox: an ask or a reply whose envelope is still being opened across a lock and an unlock can reach the list before the row is loaded, without its marker; the model drops an event that arrives before the load.
- Ask inbox: the relay envelope, personas and notification of an ask; an ask arrives opened and checked.
- ChildAskChoice.ChoiceIsWrittenAheadAndStable: says nothing of an ask whose row fell out of the 200 or was missed by a failed load, because the choice is then forgotten; both cases are characterised beside it.
- ChildAskTheorems.OnceEntriesAreConserved: counts the entries the push placed; the pusher removing them again when its own push fails is the pusher's.
- Bunker: relay URLs, public keys and hashes are in their normalised lower-case form; an empty pairing secret, dependant id or bound client is absent.
- Bunker: the purge of expired auth-flow pairings while one is looked up, and the best-effort writes after a logout or a pairing touch, which no reply waits for.
- Bunker: the native record of answered requests that outlives the page, and the drain of "serving stopped" replies sent past the outbox at a teardown.
- Bunker: the queue cap is checked before awaits, so no strict bound on queued approvals is claimed.
- BunkerIntake.ConstantTimeEqual: the exclusive-or of the two lengths is represented by whether it is zero, which is all the comparison uses.
- BunkerPolicy.TotalDispatch: counts reply calls; whether a built reply then reaches the outbox is the outbox's part.
- BunkerStore.CeilingsAndDenialsLast: handlers run one at a time, and pairing callbacks are not among them; the grant half is proved at await granularity in BunkerInterleaving.
- Bunker: grants synced from another device or removed by the guardian; only the writes of requests and taps are modelled.
- BunkerServer: one clock reading per flush.
- Activity: connected-apps subscription, seed timeout and debounce timers; only the merge and what a publish drops are modelled.
- Activity.NothingIsReorderedOrStalls: one pairing, because a batch of an old pairing that fails to publish is put back into the new one's queue.
- Blob housekeeping: a deletion is taken to run when it is asked for and to succeed unless the parent refuses it; a rejected `onSaveConfig` stored nothing; a form value with a hash has a URL the save keeps; an upload makes its blob present when it settles, although the server has it earlier; the paired-child view, which cannot edit, and the result notes.
- Card backdrop: image downscaling, size and type checks, listeners and the reset used by tests.
- Contact directory, update checks, picker choice, invite card and relay helpers: thin next to the parts above.
