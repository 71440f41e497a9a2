# Thunder Bridge, modelled

This project models the parts of the Thunder Bridge gateway whose correctness does not show in any one
function, and proves what its documentation and tests promise of them.

- **The replicated ledger.** Each instance keeps four append-only tables of facts, `accepted`, `paid`, `outbox`
  and `delivered`, each fact named by its table, the instance that wrote it and that instance's own number.
  Instances exchange watermarks and facts without a leader and prune on their own. `LedgerState` gives one
  instance's tables as a value and what each operation makes of it; `Ledgers` holds the class whose methods
  update the tables in place and are proved to do just that; `Stores` is the instance as its peers meet it.
  `Clusters` puts any number of instances on a wire where a note may be lost, heard again or heard late, and
  `ClusterSafety`, `ClusterRuns`, `WorklistRuns`, `CatchUp`, `Pushes`, `OrderFree`, `Repeats` and `Honesty` prove
  what holds of it. `Writing` and `Hearing` say row by row and column by column what an operation leaves,
  `Retention`, `Replay` and `Repairs` what a sweep keeps and mends, and `Webhooks`, `Retries`, `Deliveries` and
  `Takeovers` that every webhook is sent. `Witnesses` builds, step by step from empty instances, the runs that
  show where a promise ends.
- **Turns, schedules and limits.** `Turns` ranks instances for a payment and `StoreTurns` says whose turn it is among
  stores, `Polling` spaces polls, `Budgets` limits how often a host is asked and `Requests` keeps idempotency keys.
- **The codec.** `Bech32` and `Bech32Strings` are the checksum and its text, `Generators` and `Vectors` say that it is
  the checksum of BIP 173, `Regroup` turns bytes into words and back, `Invoices`, `Amounts` and `Decoding` read what
  an invoice says, `Lnurls` writes an endpoint.
- **The bank reader.** `Fio` rotates tokens.

A ledger operation appears twice: as a function of values, about which theorems are stated, and as a method with
the source's loops, proved to compute that function. Time is passed in; each call reads the clock once. A fact's
MAC, hashes, preimage and invoice are one predicate, `Rules.genuine`. Clauses that speak of a `Sound` ledger hold in
every state of every run, by `ClusterSafety.EveryRunKeepsInv`.

## Where the code and its documentation differ

The code is followed in each case.

- `docs/design.md` calls a reply with nothing more to send the only moment an instance may count itself in sync.
  A push says the same and is treated the same (`src/gossip.ts:107-108`), so `Stores.Store.Receive` marks the
  instance as converged on either. After an answer the hearer is caught up (`ClusterRuns.LastAnswerDominates`);
  after a push it is if and only if it was caught up before the pusher wrote (`Pushes.ConvergedOnAPush`), and
  `Witnesses.PushCanFallShort` is a run that counts an instance as converged while it is behind.
- `docs/design.md` gives the batch as 500 facts per origin; it is 500 per origin and table.
- A number covered by `through` may belong to a fact that was refused or pruned, so a mark alone does not say
  that a row is held: `ClusterRuns.NoSilentLoss` names the two exceptions, and `Witnesses.CoveredWithoutBeingHeld`
  is a run that ends in one.
- A row pushed ahead of a gap and swept before the mark reaches it is learned again from the next note that
  carries it: `Pushes.HeardExactlyAboveMark` and `Pushes.SweptComesBackExactlyAboveMark` say that this happens
  exactly above the mark, and `Witnesses.SweptRowComesBack` is a run in which it does.
- Retention deletes by payment id, so where one id has two settlements the older can take the newer with it.
  `Replay.SweepKeepsReplay` gives the exact condition, and `Witnesses.SettlementLostInARun` is a run in which a
  trigger loses a settlement that was asked to be played back.
- The worklist keeps the expiry of whichever accepted row came first. Where rows disagree on it a sweep can leave
  a payment accepted and unwatched: `Worklist.PrunedKeepsComplete` gives the exact condition, and
  `Witnesses.DisagreementStrandsInARun` is a run in which it does.
- A sweep deletes tombstones by their own age, so on clocks that disagree one can go before the row it answers, and
  the webhook is sent again: `Retention.LandedStaysLanded` gives the exact condition and
  `Retention.SkewedTombstoneGoesFirst` an instance of it.
- BIP 173 admits only ASCII. An invoice is put in lower case before it is read, and the Kelvin sign's lower case is
  `k`, so an upper-case text reads with it too: `Bech32Strings.KelvinReadsAsK`.

## Model

| member | source | states |
|---|---|---|
| Ledgers.Ledger.Advance | src/ledger.ts:804-817 | The mark walks up over every row held and stops at the first number that is not: it ends at the frontier, the end of the unbroken run above it. |
| Ledgers.Ledger.Cover | src/ledger.ts:575-586 | Whatever order the entries come in, each mark of another origin ends at the frontier above the larger of itself and what the peer reached; this instance's own marks stay. |
| Ledgers.Ledger.RecordOutbox | src/ledger.ts:780-795 | A row not held is filed with its due time, no attempts and its deadline; a row held stays as it is; either way the mark advances. |
| Ledgers.Ledger.Absorb | src/ledger.ts:528-573 | The loop over a note's facts, then `cover`, leaves the ledger as the fold of single facts says, and reports each settlement it learned, in order. |
| Ledgers.Ledger.Since | src/ledger.ts:494-526 | The loop over lanes answers with exactly the rows above the asker's marks, a bounded batch a lane, says how far each lane reaches and whether any was cut, whatever order lanes come in. |
| Ledgers.Ledger.Accept | src/ledger.ts:232-248 | The payment handed back carries the union of webhooks; a row is written exactly when nothing was held or that union is longer; the facts told are exactly the rows written. |
| Ledgers.Ledger.Settle | src/ledger.ts:345-377 | Nothing changes unless the preimage opens the hash; otherwise the settlement, one outbox row per webhook and the end of the watch come together, and the facts told are exactly the rows written. |
| Ledgers.Ledger.Deliver | src/ledger.ts:388-398 | One tombstone under the next number, and the fact told is that row. |
| Ledgers.Ledger.DuePolls | src/ledger.ts:280-287 | Leases only watches that are due, never passing over one due sooner, all of them when there are fewer than the limit; puts off exactly those, and returns a payment for each of them while the worklist is sound. |
| Ledgers.Ledger.DueDeliveries | src/ledger.ts:379-386 | Leases only outbox rows that are due and that no tombstone answers, the longest due first, all of them when there are fewer than the limit, and changes nothing but their due time. |
| Ledgers.Ledger.Fail | src/ledger.ts:400-417 | One more attempt; scheduled again exactly when one more backoff than it had failed before still falls within the deadline, and then for that moment; parked now otherwise. |
| Ledgers.Ledger.NextDueAt | src/ledger.ts:300-308 | The least due time of worklist and outbox, delivered rows included, so never later than the next work there is. |
| Ledgers.Ledger.DeleteOutlived | src/ledger.ts:594-638 | The delete statements, one after another, leave what the single rule for outlived rows says. |
| Ledgers.Ledger.Sweep | src/ledger.ts:594-660 | Returns the payments whose watch ended since the last sweep and leaves none such, deletes what is outlived, and repairs each unowed webhook once. |
| Queries.TakeEarliest | src/ledger.ts:282-284 | As many of the due rows as the limit allows, none of them due later than one left out. |
| Queries.Soonest | src/ledger.ts:302-307 | The least of a set of times, or nothing when there is none. |
| Stores.ReachOf | src/gossip.ts:132-136 | The sum of all marks, by which progress is measured. |
| Stores.Store.Receive | src/gossip.ts:96-130 | A `have` is answered from the ledger and changes nothing; facts are absorbed, and the instance asks again exactly when more remains and its reach rose; a push counts as the end of an exchange; a poll or a miss elsewhere moves the due time of that payment, if it is held, and no other. |
| Stores.Store.Insert | src/store.ts:117-132 | A settled payment is not taken on again; any other is, due at this instance's turn; one message announces exactly the rows written, if any were. |
| Stores.Store.Pay | src/store.ts:158-175 | The outcome for each of the four cases, and that only a first settlement whose preimage opens the hash writes and announces anything beyond leaving the worklist. |
| Stores.Store.BringForward | src/store.ts:85-93 | After another's miss the due time is the sooner of what it was and this instance's turn among the rest; nothing else moves. |
| Stores.Store.Postpone | src/store.ts:203-208 | The watch is due at this instance's turn after the next poll, or never again; nothing else moves. |
| Stores.Store.Polled | src/store.ts:193-196 | This instance's turn after the next poll, and one message telling the others of it. |
| Stores.Store.Missed | src/store.ts:198-201 | The same, and one message telling the others that their turn has come. |
| Stores.Link | src/gossip.ts:96-111 | Two stores exchanging `have` and answers: the exchange ends, leaves the answerer as it was, and leaves the asker with marks at least the answerer's and marked as caught up. |
| StoreSteps.AnnouncingIsAStep | src/gossip.ts:33-37 | Whatever an instance does and announces is a step of the cluster, so every theorem about runs is about stores. |
| StoreSteps.HearingIsAStep | src/gossip.ts:104-107 | Whatever an instance hears is a step of the cluster too. |
| StoreSteps.ReceivePushed | src/gossip.ts:104-108 | A store that receives a push counts itself converged there and then, and is caught up with the pusher if and only if it was before the pusher wrote. |
| Stores.CopiesJoinTheFirstTurn | src/store.ts:236-244 | A copy heard of within the first interval - the eager delay, or the eager window if that is shorter - is due as its acceptor's turn says; a later one an interval from now, rounded up to a second, and its turn after that. |
| Replication.RecordedIssues | src/ledger.ts:755-771 | A fact written under the next number uses a number never used, exactly one above the own mark, and moves no other lane. |
| Replication.AbsorbedEffect | src/ledger.ts:528-586 | For any ledger and any note: no row goes, new rows are proven facts of the note above the marks, every such fact is then held, and a mark passes a number only where a row is held or the note vouches for it. |
| Replication.CoveredMoves | src/ledger.ts:575-586 | Covering moves marks only over rows held and numbers vouched for, reaches at least as far as vouched, and never moves this instance's own lanes. |
| Replication.TakenIssues | src/ledger.ts:232-248 | Taking a payment on uses only the next own number and keeps every row and mark of the ledger sound. |
| Replication.OpenedIssues | src/ledger.ts:345-377 | So does settling, whatever the number of webhooks. |
| Replication.OwedEveryIssues | src/ledger.ts:662-679 | So does repairing, whatever the number of webhooks unowed. |
| Replication.PrunedPrunes | src/ledger.ts:613-638 | Deleting changes no mark and no row it leaves. |
| Writing.SettlingWrites | src/ledger.ts:345-377 | Settling writes the settlement of this moment, without webhooks, and one outbox row for each webhook under the next numbers; each is sent that very payment and that very moment; the settlement is noted as heard now and the watch ends. |
| Writing.OwingWrites | src/ledger.ts:358-362 | However many webhooks there are, each has one row, in order, and all say the same. |
| Writing.LandingWrites | src/ledger.ts:388-398 | Landing a webhook writes one tombstone of this moment and changes nothing else. |
| Writing.TakingWrites | src/ledger.ts:232-265 | Taking a payment on writes a row exactly when nobody has accepted it or it asks for a webhook nobody has; the row is the payment as given, of this moment, with every webhook there is now. |
| Writing.TakingWatches | src/ledger.ts:267-274 | It watches the payment, due when asked, unless it is settled or watched already, and leaves every watch there is. |
| Writing.TakenReadsBack | src/ledger.ts:232-248 | A payment nobody had accepted reads back as it was taken on. |
| Writing.ReadsTheFirstRow | src/ledger.ts:966-980 | A payment reads back as the first row filed for it, but for the webhooks. |
| Answering.ReplyHoldsRows | src/ledger.ts:503-510 | An answer carries only rows the answerer holds, as it holds them. |
| Answering.ReplyReaches | src/ledger.ts:505-512 | How far a lane reaches is above what the asker had and within what the answerer has, cut or not. |
| Answering.ReplyMissesNothing | src/ledger.ts:508-513 | Every row held between what the asker had and how far the lane reaches is in the answer. |
| Answering.ReplyIsAllNews | src/ledger.ts:505-513 | Every fact of an answer is above the asker's mark, in a lane the answer covers, and within what it covers. |
| Answering.ReplyIsBounded | src/ledger.ts:508-513 | An answer carries at most a batch of each lane, reaches the mark of each lane it carries less of, and has more to come exactly when it carries a whole batch of some lane. |
| Answering.LastReplyCoversAll | src/ledger.ts:510-512 | An answer with nothing more to come reaches the answerer's mark in every lane the asker is behind in. |
| ClusterSafety.NextKeepsInv | src/gossip.ts:96-111 | Every step of every instance, with notes lost, repeated and reordered at will, keeps the cluster's invariant; marks and what was issued only grow. |
| ClusterSafety.EveryRunKeepsInv | src/gossip.ts:96-111 | So every reachable cluster satisfies it. |
| ClusterSafety.AnswerIsHonest | src/ledger.ts:494-526 | An answer made in any reachable cluster vouches only for numbers whose facts it carries or that are gone for a reason. |
| ClusterSafety.HeardOwnLanes | src/ledger.ts:577-579 | No note teaches an instance anything in its own lanes. |
| ClusterRuns.NoSilentLoss | src/ledger.ts:494-586 | In every run each number at or below an instance's mark was once held there, or was swept somewhere, or was refused somewhere; and its origin has written at least that far. |
| Honesty.NothingWrittenIsRefused | src/ledger.ts:536-565 | Where everything is found genuine nothing any instance writes is ever refused, in every run, so a number at or below a mark was held there or was swept. |
| Witnesses.CoveredWithoutBeingHeld | src/ledger.ts:494-586 | A run in which a mark covers a row its instance never held, its origin having swept it before it was asked. |
| ClusterRuns.FactsNeverDiffer | src/ledger.ts:766-802 | A row held anywhere reads the same as the row of that name held anywhere else. |
| ClusterRuns.NoResurrection | src/ledger.ts:819-827 | Once a mark covers a row an instance does not hold, no later step there brings it in. |
| Pushes.HeardExactlyAboveMark | src/ledger.ts:528-573 | After any note an instance holds exactly what it held and those proven facts of the note that are above its mark. |
| Pushes.SweptComesBackExactlyAboveMark | src/ledger.ts:819-827 | A row a sweep took comes back with a note that carries it exactly when its number is above the mark the sweep left. |
| Witnesses.SweptRowComesBack | src/ledger.ts:819-827 | A run in which an instance hears a push ahead of a gap, sweeps it, hears it again and holds it again. |
| ClusterRuns.NoReuse | src/ledger.ts:755-764 | The next number an instance would use is above every number it ever used, however much was swept since. |
| ClusterRuns.LastAnswerDominates | src/gossip.ts:104-111 | Hearing an answer with nothing more to come, however late, leaves every mark at least the answerer's when it answered. |
| Pushes.PushCatchesUpLane | src/gossip.ts:104-111 | In each lane of the pusher, a push takes its hearer's mark to the pusher's new one if and only if it had reached the old one. |
| Pushes.PushCatchesUpTheCaughtUp | src/gossip.ts:104-111 | Over all lanes: the hearer of a push is caught up with the pusher if and only if it was caught up with what the pusher was before it wrote. |
| Pushes.ConvergedOnAPush | src/gossip.ts:104-111 | In every run, however late the push is heard: it marks its hearer as converged, and its hearer has caught up if and only if it had before. |
| Witnesses.PushCanFallShort | src/gossip.ts:104-111 | A run in which an instance one payment behind hears the next push, is marked as converged, and is still behind. |
| ClusterRuns.PassedMeansHeld | src/ledger.ts:494-586 | A row held somewhere is held, as written, by everyone whose mark passed it, unless it was swept or refused. |
| ClusterRuns.LastAnswerMeansHeld | src/gossip.ts:104-111 | With nothing swept or refused, the last answer leaves every row that anyone holds at or below the answerer's marks. |
| ClusterRuns.MutualAnswersAgree | src/gossip.ts:96-111 | Two instances that have each heard the other's last answer, with marks that have not moved since, have the same marks; and up to them, with nothing swept or refused, the same rows. |
| ClusterRuns.NobodyIsAhead | src/ledger.ts:577-579 | In every run nobody has seen more of another than that other wrote, which is what catching up rests on. |
| CatchUp.ReachGrows | src/gossip.ts:132-136 | Marks that are nowhere lower reach as far, and somewhere higher reach further. |
| CatchUp.RoundWithMoreAdvances | src/gossip.ts:104-111 | A round whose answer has more to come raises the asker's reach and closes the gap by at least a whole batch. |
| CatchUp.LastRoundDominates | src/gossip.ts:104-111 | The last round leaves the asker's marks at least the answerer's everywhere. |
| CatchUp.ExchangeEndsCaughtUp | src/gossip.ts:96-111 | An exchange with an answerer that stands still takes at most one round per batch of the gap and one more, and then the asker is caught up. |
| Repeats.HearingTwiceIsHearingOnce | src/ledger.ts:528-573 | A note heard again changes nothing at all and tells of no settlement again, whenever it comes. |
| Repeats.AnnouncedIsNews | src/ledger.ts:533-571 | The settlements a note is reported to have brought are exactly those of the paid rows it added. |
| Hearing.NotesMoveColumns | src/ledger.ts:536-551 | New settlements are noted as heard at this moment; each payment a note brings is watched unless settled, with the expiry and the turn of a fact that brought it; a watch ends only by a settlement. |
| OrderFree.OrderMakesNoDifference | src/ledger.ts:528-573 | Two ways of hearing one set of pushed facts, in any order, batching and repetition, leave the same tables, marks and watched payments, and every payment reads the same; each mark ends the longest run held from 1. |
| OrderFree.ReadCarriesEveryWebhook | src/ledger.ts:966-986 | A payment read back carries exactly the webhooks its accepted rows carry, none twice unless a row repeats one. |
| OrderFree.MergedIsUnion | src/ledger.ts:982-986 | Merging webhook lists is their union and repeats none. |
| OrderFree.TakenCarriesEveryWebhook | src/ledger.ts:232-248 | Taking a payment on again loses no webhook it had and gains exactly those newly asked for. |
| Worklist.AbsorbedKeeps | src/ledger.ts:536-551 | Absorbing any note keeps the worklist sound, and complete if it was. |
| Worklist.TakenKeeps | src/ledger.ts:232-274 | So does taking a payment on. |
| Worklist.OpenedKeeps | src/ledger.ts:345-377 | Settling keeps it and leaves the payment settled and unwatched. |
| Worklist.AbsorbingMovesNoWatch | src/ledger.ts:267-274 | Whatever a peer says, a payment already watched keeps its expiry and turn, and leaves the worklist only once settled. |
| Worklist.PrunedKeepsWatchful | src/ledger.ts:613-637 | Retention never drops the accepted row of a payment still watched. |
| Worklist.PrunedKeepsComplete | src/ledger.ts:617-620 | The sweep leaves every accepted, unsettled payment watched if and only if no accepted row outlasts its watch, which holds whenever the accepted rows of a payment agree on its expiry. |
| Worklist.DisagreementStrands | src/ledger.ts:617-620 | Where they disagree it can strand one: a sound ledger. |
| Witnesses.DisagreementStrandsInARun | src/ledger.ts:617-620 | And a run that reaches it: two instances accept one payment with different expiries, one hears of the other's, and its sweep leaves the payment accepted, unsettled and unwatched. |
| WorklistRuns.EveryRunKeepsWorklist | src/ledger.ts:232-287 | In every run nothing is both watched and settled and every watch has its accepted row with that expiry; and while accepted rows agree on expiry, everything accepted and unsettled is watched. |
| WorklistRuns.WatchedIsReadable | src/ledger.ts:280-287 | So a payment can be read for every watch that is leased. |
| Sweeping.DeletedInTurnIsPruned | src/ledger.ts:618-638 | Each delete looks at tables the ones before it have already cut, yet together they delete exactly the rows outlived when the sweep began. |
| Retention.AcceptedKept | src/ledger.ts:618-621 | An accepted row is kept exactly until its payment has been expired, or settled by anyone, for the grace. |
| Retention.OutboxKept | src/ledger.ts:622-626 | An outbox row is kept exactly until the grace after it was parked or, once a tombstone answers it, the grace after it was owed. |
| Retention.SettlementKept | src/ledger.ts:627-637 | A settlement is kept for the grace and, while every settlement of its payment is within its replay, longer. |
| Retention.TombstoneKept | src/ledger.ts:638 | A tombstone is kept exactly for the grace. |
| Retention.WatchKept | src/ledger.ts:606-617 | A watch is kept exactly until the grace after its expiry, and announced from its expiry on. |
| Retention.ExpiredAreTold | src/ledger.ts:596-606 | The payments a sweep tells of are exactly those whose watch it marks as announced, or ends before it was. |
| Retention.LandedStaysLanded | src/ledger.ts:622-638 | An outbox row that a tombstone answered is still answered after a sweep if and only if one of its tombstones is within the grace. |
| Retention.TombstonesOutliveRows | src/ledger.ts:622-638 | So a tombstone no older than the row it answers is kept for as long as the row. |
| Retention.LandedIsNeverDueAgain | src/ledger.ts:379-386 | In every run of leases, failures, writes, sweeps and notes, on any clocks, a webhook with a tombstone no older than its row is never leased again. |
| Retention.LandingAnswers | src/ledger.ts:388-398 | Landing a webhook answers every row for it with a tombstone of now. |
| Retention.SkewedTombstoneGoesFirst | src/ledger.ts:622-638 | A tombstone older than its row can go first, and then the webhook is due again: a sound ledger. |
| Repairs.SweepRepairsTheNeglected | src/ledger.ts:641-671 | A sweep writes a row for each neglected webhook and settlement of its payment, one and no more, and no other row: none for a webhook that is owed, has landed or was settled within the last minute. |
| Repairs.OneSettlementIsCopied | src/ledger.ts:662-671 | A repaired webhook is sent the settlement that is held and the moment it names. |
| Webhooks.SweepOwesEveryWebhook | src/ledger.ts:641-671 | After a sweep every webhook listed for a payment whose settlement was heard a minute ago has an outbox row or a tombstone, and the repair wrote only outbox rows. |
| Webhooks.PrunedKeepsHooksOwed | src/ledger.ts:618-638 | Retention drops an accepted row no later than the outbox rows that answer for its webhooks. |
| Webhooks.AloneRepairNeverFires | src/ledger.ts:641-660 | In every run of an instance without peers on a clock that does not go back, the repair finds nothing to do. |
| Replay.Play | src/ledger.ts:317-322 | As many rows of a trigger as the limit allows, oldest first: exactly those that rank within it. |
| Replay.PlayedSettledLast | src/ledger.ts:317-322 | What is played back comes in the order it settled, by time and then number, and whatever is left out settled no later than any of it. |
| Replay.KeptExactlyWithinReplay | src/ledger.ts:627-637 | Where each id is settled once, a settlement past its grace survives if and only if its rank is within its own replay. |
| Replay.SecondSweepKeepsSettlements | src/ledger.ts:627-637 | A second sweep at the same time deletes no settlement. |
| Replay.SweepKeepsReplay | src/ledger.ts:627-637 | A sweep leaves a replay unchanged if and only if none of its rows is both past the grace and a sibling of one beyond its replay. |
| Replay.RetentionServesReplay | src/ledger.ts:317-322 | Where each id is settled once, no sweep changes a replay no longer than the least any row of the trigger asked for. |
| Replay.TwiceSettledCanBeLost | src/ledger.ts:627-637 | Settled twice, a payment can be lost to its trigger: a sound ledger. |
| Witnesses.SettlementLostInARun | src/ledger.ts:627-637 | And a run that reaches it: two instances settle one payment, one hears of the other's, and its sweep changes a replay that every settlement of the trigger asked for. |
| Retries.RetriesAreBounded | src/ledger.ts:400-417 | In every run of leases and failures, k failures without parking fit k(k+1)/2 backoffs between the first failure and the deadline. |
| Retries.TriesFitTheDeadline | src/ledger.ts:400-417 | With a backoff of a second or more, a delivery not parked has failed no more often than there were seconds between its first failure and its deadline. |
| Retries.FailuresAreFew | src/ledger.ts:400-417 | In every run of leases and failures there are at most as many failures as seconds between the first and the deadline, and one more; and after more failures than seconds the delivery is parked. |
| Retries.FailureParksOrReschedules | src/ledger.ts:409-416 | A failure parks its row exactly when now and one more backoff than it had failed before pass the deadline, and otherwise makes it due exactly then. |
| Retries.ParkedExactlyPastTheDeadline | src/ledger.ts:400-417 | In every run, at every moment, a row is parked if and only if its last failure and its next backoff pass its deadline: none is given up while its next try still fits. |
| Deliveries.EveryRowIsTriedWhileTimeIsLeft | src/ledger.ts:379-434 | The same of every outbox row of a ledger, whatever else the ledger does, from being written. |
| Deliveries.ColumnsAreARun | src/ledger.ts:379-434 | Whatever a ledger does - leases, failures, notes heard, rows written, sweeps - the columns of each of its outbox rows go through such a run. |
| Deliveries.EveryRowParksInTime | src/ledger.ts:379-434 | So every outbox row, from being written, keeps its deadline, counts its failures, and is parked after more of them than there are seconds left at the first. |
| Retries.StepKeepsSpaced | src/ledger.ts:379-417 | After a failure the next try is never past the deadline, and no step moves the deadline. |
| Retries.ParkedStaysParked | src/ledger.ts:409-417 | A parked delivery is never leased again, and another failure later parks it again. |
| Retries.DeadlineAtInsertion | src/ledger.ts:428-434 | The deadline is the floor or the latest expiry accepted for the payment when the row is written, whichever is later. |
| Retries.SweepKeepsDeadlines | src/ledger.ts:618-625 | A sweep changes no deadline, even when it deletes the accepted row the deadline came from. |
| Retries.AbsorbingKeepsDeadlines | src/ledger.ts:528-573 | Nor does anything a peer says. |
| Takeovers.SettlerTriesAtOnce | src/ledger.ts:364-368 | The instance that settles has every webhook due at once, untried and unparked. |
| Takeovers.OthersWaitToTakeOver | src/ledger.ts:555-560 | An instance that hears of deliveries has each due when it would take it over, and changes none it had. |
| Takeovers.RoundingIsNearest | src/ledger.ts:893-902 | A step between takeovers is the nearest whole second to an eighth of the takeover time, the larger of two. |
| Takeovers.TakeoversAreSpread | src/ledger.ts:893-902 | Takeovers come after the takeover time, within seven steps of it, and different ranks are a step or more apart. |
| Requests.Book.ClaimKey | src/ledger.ts:436-463 | The four answers in their order; a key given out is held by this request, unpaid, for its lease from now, and no other row changes. |
| Requests.Book.ReleaseKey | src/ledger.ts:469-471 | A release deletes a row only while it has no payment. |
| Requests.StepKeepsExclusive | src/ledger.ts:436-471 | Claims, fulfilments, ends and prunes in any order keep every live request alone on its key. |
| Requests.OneHolderPerKey | src/ledger.ts:436-463 | Where requests end within their lease, no two are ever live on one key, and nobody else is let in meanwhile. |
| Requests.LiveKeyAnswers | src/ledger.ts:441-454 | While a request is live on a key, the same request is told that it is in flight, or the payment once made, and any other a mismatch. |
| Requests.EndingGivesBack | src/ledger.ts:469-471 | A request that ends without a payment gives its key back, in every run: whoever asks next is told it is its own. |
| Requests.OverrunLetsAnotherIn | src/ledger.ts:441-455 | A claimed key is in flight to the same request until the end of its lease and open to it exactly from then on, and a mismatch to any other throughout, so a request that outlives its lease is not alone. |
| Requests.FulfilledAnswersTheSame | src/ledger.ts:436-471 | A fulfilled key answers the same payment to its own request and a mismatch to any other through every later event until a prune a day after its claim. |
| Turns.RankAmong | src/store.ts:290-300 | The loop counts exactly the peers that stand higher. |
| Turns.RanksAreAPermutation | src/store.ts:290-300 | Where everyone sees everyone, the ranks are 0 to n-1, each held once. |
| Turns.RemovalMovesUpThoseBehind | src/store.ts:290-300 | One instance gone moves up by one exactly those ranked behind it. |
| Turns.TurnsAreAWaitApart | src/store.ts:222-234 | No two instances are due within a wait of each other. |
| Turns.OneTurnInTheFirstWait | src/store.ts:222-234 | Exactly one instance is due in the first wait, and it is due on time. |
| Turns.SeeingFewerRanksNoHigher | src/store.ts:290-300 | An instance that sees only some of the others never ranks itself further back for it. |
| Turns.SomebodyPollsOnTime | src/store.ts:222-234 | Whatever each instance sees, one of them is due on time and none is due later than if all saw all. |
| Turns.MissPassesTheTurnOn | src/store.ts:85-93 | A miss makes exactly one of the others due at once: the first of them; the rest stay at least a wait away or as due as they were. |
| Turns.FirstMissesSecondIsDue | src/store.ts:85-93 | When the first misses, it is the second that is due. |
| StoreTurns.InsertGivesOneTurn | src/store.ts:117-132 | Of stores that see one another, none of which answers alone, exactly one is due at once for a payment they take on, and every other a wait later or more. |
| StoreTurns.HearingGivesOneTurn | src/store.ts:236-244 | The same where one takes the payment on and the others hear of it within the first interval, each when it does. |
| StoreTurns.PollGivesOneTurn | src/store.ts:203-208 | After a poll exactly one of them is due at the next one, and every other a wait later or more. |
| StoreTurns.MissPassesOn | src/store.ts:85-93 | After a miss exactly one of the others is due at once, if it was not before; the rest come forward to a wait from now at most and are put off by nothing. |
| StoreTurns.AloneIsDueAtOnce | src/store.ts:222-234 | A store that answers alone waits for nobody on taking on, after a poll and after a miss. |
| Polling.NextDueIsAhead | src/watch.ts:217-229 | Nothing after expiry or the horizon; otherwise never past expiry, and ahead of now if and only if the delay is positive. |
| Polling.NextDueComesAfterTheDelay | src/watch.ts:217-229 | The next poll comes as soon as the delay is over, rounded up to a second, or at expiry if that is sooner: the pace asked, else the eager delay while young, else a tenth of the age. |
| Polling.LateDelay | src/watch.ts:256-268 | Past the eager window the delay is a tenth of the age, rounded up to a second. |
| Polling.LatePollsGrow | src/watch.ts:256-268 | Each late poll finds the payment at least a tenth older than the one before. |
| Polling.PollsAreFew | src/watch.ts:217-229 | However late polls come, there are at most ceil(300/e) + k + 1 of them, where e is the eager delay in whole seconds and 300 * 1.1^k reaches the horizon. |
| Polling.NinetySixLatePolls | src/watch.ts:217-229 | The least such k is 96. |
| Budgets.Budget.Spend | src/watch.ts:231-242 | A slot near enough is taken and the next moved on by one slot; a refusal changes nothing; other hosts are not touched. |
| Budgets.Budget.Heed | src/watch.ts:79-84 | A pace named by a host is what every next poll of it waits, and a ceiling the rate of its slots from then on; what is left out, and every other host, stays as it was. |
| Budgets.SlotsAreSpaced | src/watch.ts:231-242 | In every run on any clock, slots are at least 1000/rate apart, the rate being the one read at the earlier grant, and no wait is longer than five seconds. |
| Budgets.SlotsAreTight | src/watch.ts:231-242 | And none is later than it need be: a request takes the moment it comes or the next slot, whichever is later, and is refused exactly when that is more than five seconds away. |
| Budgets.WindowHoldsFew | src/watch.ts:231-242 | At a constant rate a window of w ms holds at most w * rate / 1000 + 1 slots. |
| Budgets.ClusterKeepsTheRate | src/watch.ts:238-239 | n instances that each take an n-th of the rate hold at most w * rate / 1000 + n together. |
| Budgets.CeilingGoverns | src/watch.ts:82-84 | After any requests and ceilings, the slots granted after a new ceiling are its share apart, and a window holds no more of them than that share allows, and one. |
| Bech32.Bech32Polymod | core/bolt11.ts:119-133 | The two loops compute the word-by-word fold of the register. |
| Generators.FoldIsAMultiple | core/bolt11.ts:5 | What a word shifted out puts back is that multiple, over GF(32), of the generator of BIP 173. |
| Generators.StepDivides | core/bolt11.ts:123-129 | One step is one step of a division by that generator. |
| Generators.PolymodIsTheRemainder | core/bolt11.ts:119-133 | The checksum is the remainder, and the only one, of one and the words divided by that generator, for any words. |
| Bech32.StepIsLinear | core/bolt11.ts:123-129 | Stepping the difference of two registers and words gives the difference of the steps. |
| Bech32.StepIsInjective | core/bolt11.ts:123-129 | With a zero word, only the zero register steps to zero. |
| Bech32.RunKeepsThirtyBits | core/bolt11.ts:119-133 | The register never needs more than thirty bits, so signed 32-bit shifts do it no harm. |
| Bech32.BurstsLast | core/bolt11.ts:119-133 | Up to six words into an empty register leave it zero only if all are zero. |
| Bech32.BurstsAreDetected | core/bolt11.ts:119-133 | Strings of words of any length that differ only inside six consecutive words never share a checksum. |
| Bech32.ChecksumChecks | core/lnurl.ts:354-359 | Whatever the words, the six computed for them make the checksum come out at 1. |
| Bech32Strings.SplitBech32 | core/bolt11.ts:80-111 | Reads a string exactly when it is in one case, has an invoice prefix before its last `1`, words for every character after it and a checksum that checks; and reads it as those parts. |
| Bech32Strings.ExpandedTellsChars | core/bolt11.ts:113-117 | The prefix enters the checksum as the high bits of its characters, a zero and their low bits. |
| Vectors.VectorChecks | core/bolt11.ts:4-5 | The valid string of BIP 173 that spells the whole alphabet checks, letter for letter. |
| Bech32Strings.PartsAreDetermined | core/bolt11.ts:86-110 | No string has two readings. |
| Bech32Strings.DamageIsRefused | core/bolt11.ts:80-111 | Of two strings of one length and one prefix whose lower cases differ, and only within six characters in a row, at most one is read. |
| Bech32Strings.KelvinReadsAsK | core/bolt11.ts:80-84 | Damage that lower case undoes is not noticed: an upper-case text reads the same with any K turned into the Kelvin sign. |
| Regroup.ToWords | core/lnurl.ts:334-352 | Through a wrapping accumulator that is never cleared, the words spell the number the bytes spell, padded with fewer than five zero bits. |
| Regroup.WordsToBytes | core/bolt11.ts:194-209 | The bytes spell what the words spell, less the bits that fill no byte. |
| Regroup.WordsAreDetermined | core/lnurl.ts:334-352 | That determines the words. |
| Regroup.ThereAndBack | core/bolt11.ts:194-209 | Bytes turned into words and back are the bytes there were. |
| Regroup.GiveGroup | core/lnurl.ts:344-345 | The bits read from the wrapped accumulator are those of the exact number, whatever was shifted out at the top. |
| Lnurls.ToLnurl | core/lnurl.ts:314-324 | Refused unless the scheme is http or https; otherwise the text is upper case, reads as the prefix and words that spell the endpoint's bytes, and its checksum checks. |
| Lnurls.ChecksumOf | core/lnurl.ts:354-359 | The loop over slots gives the six words of the checksum. |
| Lnurls.LnurlReadsBack | core/lnurl.ts:314-359 | The text has these words and no others, and they turn back into the endpoint's bytes. |
| Invoices.TaggedFields | core/bolt11.ts:141-160 | For any words at all: each tag with the first data laid out for it, and nothing else. |
| Invoices.FieldsCoverWords | core/bolt11.ts:141-160 | Any words are fields laid out one after another and a rest that begins no whole field. |
| Invoices.LaidReadsBack | core/bolt11.ts:141-160 | Fields laid out read back as themselves, whatever broken rest follows. |
| Invoices.LaidInvoiceReadsBack | core/bolt11.ts:141-160 | So does the whole of an invoice, for any timestamp and signature. |
| Invoices.SignatureIsNotRead | core/bolt11.ts:143-152 | Words that agree between the timestamp and the signature lay out the same fields, so the same data is read for every tag. |
| Invoices.HexTag | core/bolt11.ts:162-169 | Bytes exactly when the tag is there with the expected length. |
| Invoices.PaymentHashOf | core/bolt11.ts:162-169 | A 32-byte hash put first under its tag is the hash read. |
| Invoices.ReadNumber | core/bolt11.ts:190-192 | The number the words spell. |
| Invoices.Dates | core/bolt11.ts:49-64 | Issued at the timestamp, expiring after the first expiry field or an hour; nothing when the words are too few. |
| Decoding.DecodeInvoice | core/bolt11.ts:40-64 | Nothing for a string that does not read; otherwise the amount its prefix names, the hashes the first fields of their tags hold at the right length, and the dates. |
| Amounts.AmountFromHrp | core/bolt11.ts:179-188 | A prefix has an amount exactly when it names a whole number of millisatoshi, and then it is that number. |
| Amounts.UnitsAreThousandths | core/bolt11.ts:17-23 | Each unit is a thousandth of the one before, and a bitcoin is a hundred thousand million millisatoshi. |
| Amounts.PrefixesAre | core/bolt11.ts:25 | A prefix is one of the five networks, alone or with an amount, and nothing else is. |
| Amounts.AmountIsDetermined | core/bolt11.ts:25 | No prefix names two amounts, whichever network is tried first. |
| Amounts.WrittenAmountIsRead | core/bolt11.ts:179-188 | An amount written in any unit is the amount read, unless it is no whole number of millisatoshi. |
| Decoding.TagsHaveTheirLetters | core/bolt11.ts:10-14 | The tags and lengths of the two hashes and the expiry are the letters BOLT 11 gives them. |
| Decoding.WrittenHashIsRead | core/bolt11.ts:40-64 | An invoice written with a payment hash reads back that hash, whatever else it carries. |
| Fio.LongestUnused | sdk/src/fio.ts:142-153 | One of the tokens, used no later than any other. |
| Fio.IdlestIsPastItsWindow | sdk/src/fio.ts:96-106 | Once a pace has passed since the last read, the token longest unused is past its window. |
| Fio.Reader.Read | sdk/src/fio.ts:96-107 | Reads exactly when a pace has passed, with the token longest unused, and remembers it; the second refusal never happens. |
| Fio.TokensKeepTheirWindows | sdk/src/fio.ts:88-107 | In every run, on any clock, reads are a pace apart and uses of one token a window apart. |
| Fio.ReadsEveryPace | sdk/src/fio.ts:96-106 | In every run a call reads if and only if a pace has passed. |

## Left out

- HTTP, websockets, DNS, timers, Hyperswarm and Protomux, TLS pinning and the handshake: links are a set of notes.
- SQLite: a table is a map, a statement is what it means, and `transact` and each method are atomic. Where SQL
  leaves an order open, the model either proves the result for every order or, for the settlement a repair
  copies and for settlements that tie in a replay, takes the first by key and breaks ties by origin.
- Columns and tables with no part in the above: `kept` and sealed blobs, `caller` quotas, the retired `pending`
  table, migration, `mac` (part of `Rules.genuine`) and re-signing under a new key.
- Integers are unbounded, so numbers past 2^53 and the safe-integer guard of `cover` are not modelled.
- JSON, and what in a payment takes no part in the ledger: a payment is its id, times, verify URL, trigger,
  replay and webhooks, and a webhook is its URL.
- The clock is read once per call and is a whole number of seconds in the ledger; clock skew between instances is
  unrestricted in the cluster theorems, and `Webhooks.AloneRepairNeverFires` asks one instance's clock not to go back.
- `polled`, `missed` and `spent` notes in the cluster: they move due times only, which `Reschedule` covers with
  any due times at all; `spent` touches no ledger.
- Floating point: poll delays, rates and paces are exact reals, and amounts whole numbers.
- SHA-256, HMAC, Ed25519 and schnorr: standings are an abstract function, distinct where a theorem says so.
- Parsing a URL and encoding it as UTF-8: `Lnurls` is given the scheme and the bytes.
- What a bank statement says: `Fio` models when it is read and with which token, not its transactions.
- Address resolution, routing, the SDK client, rails, agents, QR drawing and the regtest tools: thin wrappers or
  network flows.
- Ledgers.Ledger.Fail: does not recompute the deadline of an outbox row that has none, which only rows written
  before that column existed lack.
- Ledgers.Ledger.DeleteOutlived: does not delete sealed payments, since the `kept` table is not modelled.
- Ledgers.Ledger.Sweep: does not fill the `kept` table; its delete from `requests` is `Requests.Book.Prune`.
- Stores.Store.Receive: does not model the `spent` note, which touches no ledger, nor the rejection of notes whose
  fields have the wrong type, which `Message` cannot hold.
- Restoring a ledger from a backup, and peers that hold the key and lie.
