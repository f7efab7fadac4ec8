# A verified model of the bridge's queueing, ownership and configuration logic

This project models, in Dafny, the parts of the repository whose correctness is hard to see by
reading one function, and proves what they promise:

- **The busy-session protocol** (`core/engine.go`, `core/session.go`): a message that finds its
  session locked is queued, a worker drains the queue and releases the lock in one step with its
  "queue is empty" test, and the handler tries the lock again after its append. The model is a step
  system with one goroutine per message, one current state object, the session flag and logs of
  accepted, started, dropped, recalled and discarded messages; every lock acquisition and every
  critical section is one step, and every interleaving is covered, failures and shutdown included.
  `PendingQueue` has the queue's own code as a class over an array that is compacted in place.
- **Ownership of the agent process** across cleanup, stop, recycling and engine shutdown.
- **The configuration editor** (`config/config.go`): line matching, the upsert that keeps indentation
  and trailing comment, the section and top-level patchers, the formatter that every write goes
  through, the span builder, and the Weixin credential save from the text of the file to what the next
  read of the written file finds.
- **Smaller state keepers with a whole-run guarantee**: the outgoing token bucket, the deduplication
  window, the directory history, the agreement of cron store and scheduler, heartbeat persistence, the
  streaming hold of a silent reply, the message splitter and the allow-list merge.

Code that updates things step by step is a method or a class whose contract ties the new state to a
specification function; what the source promises is then proved about that function. `BusyReports`,
`BusyTurns`, `EditShapes`, `PlatformReading`, `WeixinChoice`, `CronFields` and `FormatLayout` say what
the specification functions mean in other terms: by what happens over a run, by the shape of a line or a
file, by counting, by field names. Each file holds one module; `SeqFacts`, `Text` and `Wrappers` are helpers.

## What the proofs found

Where a promise does not hold in full, the code is modelled as it is, a run or an input shows the
failure, and the exact condition is proved.

- A message can be accepted and then never looked at although the agent is alive: appended to a state
  object that was replaced between lookup and append, or queued on an object that is then recycled
  (`StaleAppendLosesMessage`, `RecycleLosesMessage`). All accepted messages are answered for if and
  only if neither happens (`DeliveredIffNothingStranded`).
- A silent stop discards a non-empty queue without a report (`SilentStopLosesMessage`,
  `FourWayPartitionIff`).
- A cleanup without an expected state can delete an entry that was created while the old agent was
  closing; that agent is never closed (`UnconditionalCleanupLeaksReplacement`, `EveryAgentAccountedIff`).
- Cron store and scheduler disagree after an add whose save failed, after an `enabled` edit with a value
  that is not a boolean, and after edits that spell the field name in another way (`AddAgreesIff`,
  `UpdateAgreesIff`).
- A quoted configuration value with a bell or vertical tab, or before TOML 1.1 with any control
  character that has no one-letter escape, is not a TOML string (`QuoteRoundTripIff`).
- A string that is not a basic one in single double quotes can mislead the comment scanner, so that
  replacing the value loses the comment or leaves part of the old value behind (`StringsMislead`). On any
  line the kept comment is TOML's if and only if counting double quotes tells the '#' characters inside
  strings, triple-quoted ones included, from the one that starts the comment (`CommentIsTomlsIff`); for
  a value that is one literal string, with one or three quotes, if and only if that string holds no '#'
  outside double quotes and, when a comment follows, leaves none open (`LiteralKeepsCommentIff`); for a
  value that is one basic string, always (`BasicKeepsComment`).
- The formatter removes array headers without content; the number of projects is kept if and only if
  there is no such header (`FormatKeepsCountIff`, `SaveKeepsProjectsIff`). When a header occurs twice
  and is empty the first time, the second section is found instead (`EmptyFirstChangesLookup`); a lookup
  is kept if and only if the first section with the header has content, or the first one that has
  content lacks the key (`FormatKeepsLookupIff`). Every line that starts with a bracket counts as a
  header, so a matrix written over several lines loses a row (`MatrixLosesRow`); nothing is lost if and
  only if no such line has only blank lines behind it up to the next one (`FormatLosesNothingIff`).
- A second merge of the same user can change an allow list (`CommaUserNotIdempotent`). It changes
  nothing if and only if the user id has no comma, the list is universal, or every entry between the
  user's commas is on the list already (`MergeIdempotentIff`).

## Model

| member | source | states |
|---|---|---|
| `PendingQueue.CompactInPlace` | core/engine.go:1744-1762 | The filtering loop writes the kept messages over the front of the slice it reads and leaves exactly the non-matching ones, in order. |
| `PendingQueue.RecallSplitsQueue` | core/engine.go:1732-1767 | Recall removes exactly the messages with the id and keeps the rest in order; nothing is lost or duplicated. |
| `PendingQueue.Session.TryLock` | core/session.go:32-40 | Succeeds exactly when the session was free and leaves it busy. |
| `PendingQueue.Session.Unlock` | core/session.go:50-65 | Leaves the session free. |
| `PendingQueue.InteractiveState.TryAppend` | core/engine.go:2164-2184 | Appends at the end, or refuses and changes nothing when the queue has reached its limit. |
| `PendingQueue.InteractiveState.PopFront` | core/engine.go:4244-4253 | Takes the oldest message and leaves the others in order. |
| `PendingQueue.InteractiveState.PopOrUnlock` | core/engine.go:4539-4549 | The session is unlocked exactly when the queue was empty, otherwise the oldest message is taken and the lock kept. |
| `PendingQueue.InteractiveState.RemoveById` | core/engine.go:1732-1767 | The queue without the matching messages; the result tells whether there were any. |
| `PendingQueue.InteractiveState.DropAll` | core/engine.go:4525-4533 | Takes the whole queue in order and leaves it empty. |
| `PendingQueue.InteractiveState.AdoptFrom` | core/engine.go:2765-2775 | A non-empty queue of another object moves over unchanged; otherwise nothing changes on either side. |
| `BusySafety.RunSafe` | core/engine.go:2045-2066 | Mutual exclusion, matched locks, the queue bound, the message ledger and single acceptance survive every run of every interleaving, failures and shutdown included. |
| `BusySafety.OneWorker` | core/engine.go:2218-2250 | At any time at most one goroutine is between its successful TryLock and its Unlock, and the session is then busy. |
| `BusySafety.EveryLockReleasedOnce` | core/engine.go:2508-2647 | A goroutine that has returned unlocked as often as it locked, at most once: the drain loop's unlock and the deferred fallback never both fire, nor neither. |
| `BusySafety.OnlyHolderUnlocks` | core/engine.go:4539-4549 | Only the goroutine that holds the lock ever clears the busy flag. |
| `BusySafety.ExactlyOnePlace` | core/engine.go:2145-2195 | In every run an accepted message is exactly once in exactly one place: queued, in a drain's hand, started, reported as dropped, recalled or discarded. |
| `BusySafety.NothingInvented` | core/engine.go:4539-4581 | Nothing is queued, started, reported, recalled or discarded that was not accepted. |
| `BusySafety.QueueNeverOverLimit` | core/engine.go:2165-2184 | No queue ever exceeds the limit, on any state object, in any run. |
| `BusyDelivery.NoOrphan` | core/engine.go:2048-2066 | With the agent alive, a non-empty queue in the map means that a worker holds the lock and has not passed its atomic empty-check-and-unlock, or that a handler stands between its append and its retry. |
| `BusyDelivery.StartedInOrder` | core/engine.go:4244-4253 | Started messages, then the one in hand, then the waiting ones are a subsequence of the acceptance order. |
| `BusyDelivery.GoroutinesTerminate` | core/engine.go:4539-4581 | In any run the goroutines of N messages take at most 12 N steps together. |
| `BusyDelivery.NeverStuck` | core/engine.go:2045-2066 | Every unfinished goroutine can take a step, and without a failure. |
| `BusyDelivery.DeliveredIffNothingStranded` | core/engine.go:2145-2195 | When all goroutines of a healthy run are done, the lock is free and the queue empty, and every accepted message was started, reported or recalled if and only if no step appended to a replaced object or recycled one with a queue. |
| `BusyDelivery.StrandedForever` | core/engine.go:2796-2813 | A message stranded by such a step is never started, reported or recalled later. |
| `BusyLosses.StaleAppendLosesMessage` | core/engine.go:2147-2171 | A concrete run with a live agent in which a message appended after the placeholder was replaced is never looked at. |
| `BusyLosses.RecycleLosesMessage` | core/engine.go:2796-2815 | A concrete run with a live agent in which recycling strands a queued message. |
| `BusyLosses.SilentStopLosesMessage` | core/engine.go:7940-7970 | A concrete run in which a recall of the running message silently discards a queued one. |
| `BusyLosses.FourWayPartitionIff` | core/engine.go:7963-7970 | Over all runs: every accepted message is queued, in hand, started, reported or recalled, if and only if no silent stop hit a non-empty queue. |
| `BusyReports.DeadQueueReported` | core/engine.go:4525-4581 | In any run: once a goroutine that found the agent of an object dead, when it popped a message or took over a queue nobody drains, is past its report, every message queued there then, and the popped one, was reported to its sender, unless a recall or a stop took it. |
| `BusyReports.LateMessagesReported` | core/engine.go:4525-4533 | A message that is queued while the goroutine is about to report is reported too, under the same exception. |
| `BusyReports.FailedSendReported` | core/engine.go:3465-3494 | When a prompt cannot be sent, every message queued behind it is reported and none stays queued. |
| `BusyReports.TurnsNeedAnAgent` | core/engine.go:2508-2647 | In any run, failed starts included: turns and drains happen only on an object that has had a live agent in this run. |
| `BusyReports.DeadAgentTakesNothing` | core/engine.go:2145-2156 | A message refused the lock whose handler then finds no state, or one whose agent has died, is never queued. |
| `BusyReports.RecallTakesOut` | core/engine.go:1732-1767 | A recall takes exactly the messages with its id out of the queue of the map's state, and they are in the log of recalled ones. |
| `BusyReports.QueueTakesExactlyLimit` | core/engine.go:2164-2184 | For every limit: while one message runs, the next `limit` messages are all queued, in order, and the one after them is not. |
| `BusyTurns.OwnTurnFirst` | core/engine.go:2508-2647 | In any run: the message that got the session lock has a turn of its own, unless its goroutine has not come to it; only a failed start or a shutdown makes the goroutine give up before. |
| `BusyTurns.LostAgentStartsNoTurn` | core/engine.go:4558-4562 | In any run: an object whose agent died, was taken away or was recycled never has a live one again, and nobody who was not inside a turn on it ever enters one. |
| `BusyTurns.NoAgentNoTurn` | core/engine.go:2202-2212 | In any run: an object that came into the map without an agent, as a placeholder or by a failed start, never gets one, and no turn is run on it. |
| `BusyTurns.FlushReported` | core/engine.go:4525-4533 | Every message of a queue that is flushed with a report is reported, and none stays queued. |
| `BusyTurns.DetachedTakesNothing` | core/engine.go:2145-2152 | After the map entry was taken out, a message that finds the session busy is not queued anywhere. |
| `BusyTurns.PlaceholderTakes` | core/engine.go:2145-2184 | While the agent is starting, a message that finds the session busy is queued on the placeholder. |
| `Ownership.ClosedAtMostOnce` | core/engine.go:2950-3008 | Over any interleaving of cleanup, stop, recycling and engine shutdown no agent session is handed to Close twice. |
| `Ownership.ExpectedCleanupInAnyRun` | core/engine.go:2950-3008 | From its first section to its delete, interleaved with anything: a cleanup with an expected state does nothing unless the map holds that state; the agent it found is closed before it deletes; the delete removes the entry only if it still holds that state, and touches no other entry and no agent. |
| `Ownership.LeaksExactlyThen` | core/engine.go:2996-3007 | A step loses track of a live agent exactly when an unconditional cleanup deletes an entry whose object owns one. |
| `Ownership.EveryAgentAccountedIff` | core/engine.go:1533-1546 | When all goroutines are finished, engine shutdowns included, every agent is in the map, was closed, or died and was replaced, if and only if no such delete happened. |
| `Ownership.ShutdownClosesAll` | core/engine.go:1533-1546 | Interleaved with anything: once the loop of an engine shutdown is through, every agent that was in the map when it took its snapshot has been closed. |
| `Ownership.EveryoneCanFinish` | core/engine.go:2950-3008 | From every reachable state the cleanups, closes and shutdowns under way can run to their end by themselves. |
| `Ownership.UnconditionalCleanupLeaksReplacement` | core/engine.go:2996-3007 | A concrete run in which an agent started during a slow close ends up in no map and unclosed. |
| `Ownership.CleanupInAnyRun` | core/engine.go:2950-3008 | The same for a cleanup without an expected state, and it removes whatever entry it finds at its delete. |
| `Ownership.StopEndsSession` | core/engine.go:7940-7971 | A stop takes the entry out of the map, and in any run, once the goroutine it starts is finished, the agent of that entry has been closed. |
| `Ownership.CreateGivesAgent` | core/engine.go:2777-2815 | A successful start leaves an entry with an agent that never existed before; a recycle closes the old agent, nothing else closes one; no other entry or agent changes. |
| `Ownership.PlaceholderGivesEntry` | core/engine.go:2202-2212 | A placeholder is an entry without an agent and changes no other entry. |
| `SplitMessage.Split` | core/engine.go:12528-12558 | The loop computes the recursive chunk list. |
| `SplitMessage.ChunksConcatenate` | core/engine.go:12528-12558 | The chunks joined are the text. |
| `SplitMessage.ChunkSizes` | core/engine.go:12528-12558 | No chunk exceeds the limit, and every chunk but the last has at least half the limit plus one runes. |
| `SplitMessage.ChunkCount` | core/engine.go:12528-12558 | (k-1)(max/2+1) < n for k chunks of a non-empty text of n runes. |
| `SplitMessage.CutsAtLastNewline` | core/engine.go:12540-12552 | A chunk that is followed by another ends right behind the last newline of its window if that lies in the second half (and is not the first rune), and fills the window otherwise. |
| `SilentHold.RuledOutForGood` | core/engine.go:13582-13588 | Once a text is no possible prefix of the marker, no continuation is. |
| `SilentHold.SilentReplyCouldBe` | core/engine.go:13556-13566 | A bare marker, in any case and with white space around it, is still a possible prefix: trimmed and upper-cased it is the marker. |
| `SilentHold.TextEvent` | core/engine.go:3863-3879 | One text event keeps the loop's variables in step with the segment: nothing is shown while it may be the marker, all of it afterwards; the hold goes on only for a possible prefix. |
| `SilentHold.StreamSegment` | core/engine.go:3863-3879 | For any chunking and any initial hold value the shown text after every chunk is what the segment so far allows. |
| `SilentHold.SilentSegmentNeverLeaks` | core/engine.go:3863-3879 | A segment that ends as a bare marker has never shown a character. |
| `SilentHold.ShownOnlyGrows` | core/engine.go:3863-3879 | The shown text only grows, so the hold goes off at most once. |
| `SilentHold.SilentReplyIff` | core/engine.go:13556-13566 | A silent reply is the marker, each letter in either case, between white space. |
| `SilentHold.CouldBeSilentIff` | core/engine.go:13582-13588 | A text is held exactly if, trimmed, some continuation of it is the marker. |
| `SilentHold.ShownIff` | core/engine.go:3863-3879 | For any chunking: nothing is shown while the joined text, trimmed, can still be continued to the marker, and all of it as soon as it cannot; chunks of nothing but an ellipsis are left out. |
| `AllowFrom.Merge` | config/config.go:1890-1935 | The merge loop computes the specification of the merged list. |
| `AllowFrom.MergedItems` | config/config.go:1890-1935 | The entries after a merge, in order: the universal entry alone if it occurs, otherwise the old entries without repetitions and the user if new. |
| `AllowFrom.MergeIsUnion` | config/config.go:1890-1935 | As a set: exactly the old entries plus the user, or only the universal entry. |
| `AllowFrom.NoRepeats` | config/config.go:1901-1934 | The merged list has no repeated entry. |
| `AllowFrom.MergeIdempotentIff` | config/config.go:1890-1935 | Merging the same user again returns the same string if and only if the user id has no comma, the list holds the universal entry, or every entry between the user's commas is on the list already; for every list and user. |
| `AllowFrom.CommaUserNotIdempotent` | config/config.go:1890-1935 | A family of inputs for which it does not: the user "c,d" merged into the empty list, and again. |
| `AllowFrom.MergedText` | config/config.go:1890-1935 | The written list is its entries with a single comma between them and nothing else; a blank user leaves the trimmed list alone. |
| `Dedup.MessageDedup.IsDuplicate` | core/dedup.go:24-44 | The answer is the one the full log of calls gives, although the sweep deletes entries; an empty id is never a duplicate. |
| `Dedup.AgreesAfter` | core/dedup.go:29-43 | Sweeping, testing and inserting keep the cache in agreement with the log. |
| `Dedup.AnswersAreRight` | core/dedup.go:24-44 | Every answer of every such run is the one the full log gives. |
| `Dedup.RunLetsThroughFarApart` | core/dedup.go:24-44 | In every run of the cache from empty, two calls let through for one id are more than the window apart. |
| `Dedup.RepetitionRefused` | core/dedup.go:24-44 | In every run a repetition within a minute of a call that was let through is refused. |
| `Dedup.FreshLetThrough` | core/dedup.go:24-44 | In every run a call is let through if it has no id, or none with its id came within the minute before. |
| `DirHistory.DirHistory.Add` | core/dir_history.go:37-65 | The project's list becomes the directory in front of the others, cut to the bound; other projects are untouched; an empty directory changes nothing. |
| `DirHistory.DirHistory.List` | core/dir_history.go:68-81 | Returns the stored list, a prefix of the full most-recent-first list. |
| `DirHistory.DirHistory.Get` | core/dir_history.go:85-94 | Entry n is the n-th most recent distinct directory, and the empty string outside the list. |
| `DirHistory.DirHistory.Contains` | core/dir_history.go:102-113 | True exactly for stored directories, all of which were once added. |
| `DirHistory.DirHistory.SetMaxSize` | core/dir_history.go:116-123 | The bound becomes at least one; no list changes. |
| `DirHistory.RecentIsRecency` | core/dir_history.go:37-65 | The recursive full history lists each directory once, ordered by its last use. |
| `DirHistory.RecencyUnique` | core/dir_history.go:37-65 | There is only one such list. |
| `DirHistory.AddedIsPrefix` | core/dir_history.go:45-60 | One add keeps the bounded list a prefix of the full one, of full length while the bound stays. |
| `DirHistory.BoundedIsTruncated` | core/dir_history.go:37-65 | From empty, after any adds, the bounded list is the full de-duplicated most-recent-first history cut to the bound. |
| `DirHistory.BoundedListMeaning` | core/dir_history.go:37-65 | The same against the declarative definition, and hence no repetitions. |
| `RateLimit.EffectiveBurst` | core/outgoing_ratelimit.go:20-25 | Every enabled limit has a burst of at least one; without a configured one it is the least whole number not below a second's worth. |
| `RateLimit.TokenBucket.Refill` | core/outgoing_ratelimit.go:85-96 | The bucket becomes its lazy refill at this instant. |
| `RateLimit.RefillInBetween` | core/outgoing_ratelimit.go:85-96 | Refilling at an instant in between without a grant gives the same bucket as one refill at the end. |
| `RateLimit.RefillAnyTimes` | core/outgoing_ratelimit.go:85-96 | The same for any number of instants. |
| `RateLimit.WaitIsEnough` | core/outgoing_ratelimit.go:107-124 | After a refusal the computed pause is positive, and when it is over with no competing grant the next attempt is granted. |
| `RateLimit.OutgoingRateLimiter.FindBucket` | core/outgoing_ratelimit.go:68-82 | Returns the platform's bucket, a new one is full, and no other bucket changes. |
| `RateLimit.OutgoingRateLimiter.TrySend` | core/outgoing_ratelimit.go:107-124 | One round of the wait loop is one send attempt on the specification's buckets. |
| `RateLimit.OutgoingRateLimiter.Wait` | core/outgoing_ratelimit.go:101-132 | The retry loop ends at the first attempt that is granted, and sleeps behind every refused one for exactly the time the missing tokens take; the buckets are those after exactly these attempts; a disabled limit sends at once. |
| `RateLimit.FullPauseIsEnough` | core/outgoing_ratelimit.go:107-131 | When the timer of the first refusal runs its full time, the first or the second attempt is granted. |
| `RateLimit.TwoTriesSuffice` | core/outgoing_ratelimit.go:101-131 | A wait that is not cancelled and has no competition, whose timers run their full time, sends at its second attempt at the latest. |
| `RateLimit.PlatformsIndependent` | core/outgoing_ratelimit.go:68-131 | In every run a platform's bucket is the one its own calls alone would have left, however other platforms' calls are interleaved. |
| `RateLimit.GrantsIndependent` | core/outgoing_ratelimit.go:68-131 | So is the answer to its next attempt. |
| `RateLimit.AnyWindowBound` | core/outgoing_ratelimit.go:101-132 | In every run with a monotone clock the grants of one platform in any window number at most burst plus rate times the elapsed time. |
| `RateLimit.TokensWithinBurst` | core/outgoing_ratelimit.go:85-96 | Tokens stay between zero and the burst in every run. |
| `RateLimit.BurstGrantedAtOnce` | core/outgoing_ratelimit.go:16-131 | With a configured limit of n, or without one the least whole number not below the rate: the first n calls of a platform at one instant are granted, whatever other platforms do, and every further one is refused; a platform's own configuration goes before the defaults. |
| `RateLimit.NoRateNoLimit` | core/outgoing_ratelimit.go:101-106 | A platform whose configuration gives no positive rate is never refused. |
| `CronScheduler.CronStore.Update` | core/cron.go:268-288 | The stored jobs become the specification's edited list, with its result. |
| `CronScheduler.CronScheduler.ScheduleJob` | core/cron.go:608-626 | The old registration goes, a new one is made when the expression parses, and entries and live registrations are the specification's. |
| `CronScheduler.CronScheduler.Start` | core/cron.go:448-460 | Registers the enabled jobs of the store one after the other. |
| `CronScheduler.CronScheduler.Add` | core/cron.go:466-481 | Store and scheduler become what the specification of the add says, with its error. |
| `CronScheduler.CronScheduler.Remove` | core/cron.go:483-491 | The same for a removal. |
| `CronScheduler.CronScheduler.Enable` | core/cron.go:493-502 | The same for enabling. |
| `CronScheduler.CronScheduler.Disable` | core/cron.go:504-515 | The same for disabling. |
| `CronScheduler.CronScheduler.Update` | core/cron.go:519-586 | The same for an edit of any field, with the four read-only fields, the refused values and the field names resolved by reflection. |
| `CronFields.EditReads` | core/cron.go:290-395 | An accepted edit under a field's JSON name makes that field read the value, and every other field of the job reads as before. |
| `CronFields.EditRefused` | core/cron.go:290-395 | Under a JSON name the edit is accepted exactly for a value of the field's type. |
| `CronFields.StoreEdit` | core/cron.go:268-288 | The store's edit of an editable field is done exactly for a stored job and a value of the type, and changes that field of that job and nothing else in the list. |
| `CronFields.StoreRefuses` | core/cron.go:268-273 | The store refuses every edit of the four read-only fields. |
| `CronFields.SchedulerEdit` | core/cron.go:519-586 | An edit of an editable field through the scheduler changes the store exactly for a known job, a value of the field's type and a value that passes the checks, and then only in that field; it still reports a failure only when it switches on a job whose expression does not parse. |
| `CronFields.EnableStores` | core/cron.go:493-502 | Enabling changes the enabled flag of that job and nothing else in the list. |
| `CronFields.DisableStores` | core/cron.go:504-515 | Disabling likewise. |
| `CronFields.RemoveStores` | core/cron.go:483-491 | A removal takes the first job with the id out and leaves the others in order; it reports whether there was one. |
| `CronFields.AddStores` | core/cron.go:466-481 | A refused job leaves everything as it was; an accepted one is appended with the normal form of its session mode, also when saving fails. |
| `CronAgreement.AddAgreesIff` | core/cron.go:466-481 | Adding a job with a new id keeps store and scheduler in agreement if and only if it is not an enabled job whose save failed. |
| `CronAgreement.RemoveAgrees` | core/cron.go:483-491 | Removing a job keeps the agreement. |
| `CronAgreement.EnableAgrees` | core/cron.go:493-502 | Enabling a job keeps the agreement. |
| `CronAgreement.DisableAgrees` | core/cron.go:504-515 | Disabling a job keeps the agreement. |
| `CronAgreement.UpdateAgreesIff` | core/cron.go:519-586 | An edit keeps the agreement if and only if it is none of three kinds visible before the call, over every job list, field spelling and value. |
| `CronAgreement.StartAgrees` | core/cron.go:448-460 | Start brings about the agreement whatever the job file holds. |
| `CronAgreement.ApplyAgreesIff` | core/cron.go:466-586 | Every operation keeps the agreement exactly when it is harmless. |
| `CronAgreement.SchedulerAgreesWithStore` | core/cron.go:448-586 | From start-up through any run of harmless operations the entries are exactly the enabled jobs, the live registrations exactly the entries, none shared or left over, each with its job's current expression. |
| `Heartbeat.HeartbeatScheduler.Register` | core/heartbeat.go:86-117 | The entry is the configuration with the saved override applied; a disabled configuration registers nothing. |
| `Heartbeat.HeartbeatScheduler.Persist` | core/heartbeat.go:287-315 | The file holds exactly the overrides of the entries, and is removed when there is none. |
| `Heartbeat.HeartbeatScheduler.Pause` | core/heartbeat.go:193-210 | Pauses this project only and writes the file, unless it was paused already. |
| `Heartbeat.HeartbeatScheduler.Resume` | core/heartbeat.go:213-231 | Resumes this project only and writes the file, unless it was not paused. |
| `Heartbeat.HeartbeatScheduler.SetInterval` | core/heartbeat.go:234-252 | Sets this project's interval only and writes the file; refused below one minute. |
| `Heartbeat.Restart` | core/heartbeat.go:86-117 | Registering the same configurations over the saved file, in any order, gives back every entry. |
| `Heartbeat.LastOperationWins` | core/heartbeat.go:193-252 | After any operations each project is as its own last operations left it. |
| `Heartbeat.RestartFidelity` | core/heartbeat.go:193-315 | After any run of the three operations, each writing the file when it changes something, registering a project again with its configuration gives back exactly its entry: the paused flag and the interval its last operations gave it, also when no override is left. |
| `Heartbeat.FileRemovedIff` | core/heartbeat.go:271-315 | Once anything was written, the file is gone exactly when no project has an override left. |
| `Heartbeat.OperationsFromConfig` | core/heartbeat.go:86-252 | After a first start without a file and any operations, a project has its configuration, 30 minutes where that gives no interval or timeout, with the paused flag and the interval of its last operations. |
| `Heartbeat.RestartFromConfig` | core/heartbeat.go:86-117 | Registering that configuration again on whatever file the run has left gives the entry back. |
| `Text.JoinSplit` | config/config.go:1305-1369 | Splitting at newlines and joining again is the identity. |
| `Text.SplitJoin` | config/config.go:2519-2537 | Joining lines and splitting again gives the lines back. |
| `TomlLine.ExtractLineComment` | config/config.go:2764-2786 | The scanner loop returns the text from the first '#' outside double quotes, trimmed, or nothing. |
| `TomlLine.CommentShape` | config/config.go:2764-2786 | A kept comment starts with its '#' and is trimmed; it is empty exactly when the scan finds none. |
| `TomlLine.LeadingWhitespace` | config/config.go:2753-2762 | The loop returns the longest prefix of blanks and tabs. |
| `TomlLine.ReplacedReads` | config/config.go:2712-2720 | A rewritten line matches its key, reads back the value, and is neither blank nor a header. |
| `TomlLine.ReplacedKeeps` | config/config.go:2712-2720 | A rewritten line keeps exactly its leading white space and its trailing comment. |
| `TomlLine.ReplaceTwice` | config/config.go:2712-2720 | Rewriting twice is rewriting once with the second value. |
| `TomlLine.KeyUnique` | config/config.go:2666-2676 | A line matches at most one key without blanks, quotes or equals signs. |
| `TomlComments.CommentIsTomlsIff` | config/config.go:2764-2786 | On every line, with all four kinds of TOML strings, the kept comment is the one TOML reads if and only if, counting double quotes as the scanner does, every '#' inside a TOML string is quoted and the comment itself is not. |
| `TomlComments.LiteralKeepsCommentIff` | config/config.go:2712-2786 | For every key line whose value is one literal string, with one or three quotes on either side: rewriting keeps indentation and comment, and nothing else, if and only if the literal holds no '#' outside double quotes and, when a comment follows, leaves no double quote open. |
| `TomlComments.BasicKeepsComment` | config/config.go:2712-2786 | For every key line whose value is one basic string, whatever it holds, rewriting keeps indentation and comment, and nothing else. |
| `TomlComments.StringsMislead` | config/config.go:2712-2786 | Four key lines that the editor rewrites: from three (a literal string, a triple-quoted literal string and a triple-quoted basic string) part of the old value stays behind as a comment, from one the comment is lost. |
| `TomlString.QuoteIsNeutral` | config/config.go:2749-2751 | A quoted value never exposes a bare quote, '#' or newline to the scanner. |
| `TomlString.QuoteRoundTripIff` | config/config.go:2749-2751 | Decoding a quoted value as a TOML basic string gives the value if and only if it has no character whose Go escape TOML lacks; otherwise the text is no TOML string. |
| `TomlString.QuoteInjective` | config/config.go:2749-2751 | Different values without such characters are quoted differently. |
| `ConfigSections.UpsertFrame` | config/config.go:2724-2747 | An upsert changes at most one line of the section, the first of its key, and adds one exactly when there was none. |
| `ConfigSections.UpsertTwice` | config/config.go:2724-2747 | Upserting v and then w leaves the section as upserting w does. |
| `ConfigSections.PatchThenLookup` | config/config.go:2447-2491 | After a patch the section lookup returns the value, in an existing or a new section. |
| `ConfigSections.PatchOtherKey` | config/config.go:2447-2491 | Every other key of the section reads as before. |
| `ConfigSections.PatchOtherSection` | config/config.go:2447-2491 | Every other section reads as before. |
| `ConfigSections.PatchKeepsTop` | config/config.go:2447-2491 | The keys in front of the first section read as before. |
| `ConfigSections.PatchTwice` | config/config.go:2447-2491 | Patching v and then w is patching w. |
| `ConfigSections.PatchTopThenRead` | config/config.go:2410-2443 | After a top-level patch the key reads the value and every other top-level key reads as before. |
| `ConfigSections.PatchTopKeepsSections` | config/config.go:2410-2443 | A top-level patch changes no section lookup. |
| `ConfigSections.PatchTopTwice` | config/config.go:2410-2443 | Top-level patching v and then w is patching w. |
| `EditShapes.MatchHeaderIff` | config/config.go:2649-2659 | A line matches a header exactly if, white space around it aside, it is the header or the header followed by a blank, a tab or a comment sign and anything. |
| `EditShapes.IsHeaderIff` | config/config.go:2661-2664 | A line counts as a header exactly if its first character that is no white space is a bracket. |
| `EditShapes.MatchKeyIff` | config/config.go:2666-2676 | A line sets a key exactly if it is the key and an equals sign with nothing but white space around them, and anything behind. |
| `EditShapes.PatchShape` | config/config.go:2447-2491 | A patch of an existing section changes one line: the first of the key in the first section with the header is rewritten, or one is added as the section's last line. |
| `EditShapes.PatchCreatesShape` | config/config.go:2447-2491 | A patch of a missing section adds a blank line, the header and the key in front of the first header, and changes nothing else. |
| `EditShapes.PatchTopShape` | config/config.go:2410-2443 | A top-level patch rewrites the first line of the key in front of the first header, or adds one in front of that header, and changes nothing else. |
| `EditShapes.PatchAddsNoHeader` | config/config.go:2447-2491 | A file that has the header, with white space or a comment around it, keeps exactly its header lines when the section is patched. |
| `FormatToml.FindEmptySections` | config/config.go:1307-1329 | Pass 1 finds exactly the headers that only blank lines separate from the next header or the end. |
| `FormatToml.EmitLines` | config/config.go:1331-1361 | Pass 2 puts out the kept lines right-trimmed, blank lines collapsed, a blank line in front of each header. |
| `FormatToml.FormatTOML` | config/config.go:1304-1370 | The two passes and the trimming loops compute the formatter's specification. |
| `FormatToml.FormatKeepsContent` | config/config.go:1304-1370 | The non-blank lines of the output are the input's, right-trimmed and in order, minus the headers of empty sections. |
| `FormatToml.FormatIsNormal` | config/config.go:1304-1370 | The output has no two adjacent blank lines, no blank line at either end, no empty section, and a blank line in front of every header but the first line. |
| `FormatToml.FormatIdempotent` | config/config.go:1304-1370 | Formatting a formatted text changes nothing, for every text. |
| `FormatLayout.FormatIsLayout` | config/config.go:1304-1370 | The three passes write what one pass over the kept lines lays out: one empty line between two content lines where a blank line stood or a header follows, and none anywhere else. |
| `FormatLayout.SectionEmptyIff` | config/config.go:1307-1329 | A header's section is empty exactly if nothing but white space stands between it and the next header or the end. |
| `FormatLookup.FormatKeepsLookupIff` | config/config.go:1304-1370 | For all lines, headers and keys, formatting keeps a section's lookup if and only if the first section with that header has content (or there is none), or the first one that has content lacks the key. |
| `FormatLookup.FormatLookups` | config/config.go:1304-1370 | Formatting keeps every top-level key, and makes a section's lookup the one in the first section with that header that has content. |
| `FormatLookup.FormatKeepsValue` | config/config.go:1304-1370 | Every value that could be read before formatting can be read after it. |
| `FormatLookup.EmptyFirstChangesLookup` | config/config.go:1311-1329 | A section that occurs twice, first empty: after formatting the second one is found. |
| `FormatLookup.FormatLosesNothingIff` | config/config.go:1304-1370 | For all lines: formatting loses no line that is not blank if and only if no line starting with a bracket has only blank lines behind it up to the next such line or the end. |
| `FormatLookup.MatrixLosesRow` | config/config.go:1307-1329 | A matrix written over several lines loses a row, because a nested array at the start of a line counts as an empty section. |
| `ConfigText.JoinOfSplit` | config/config.go:2519-2537 | Joining what was split is the identity on empty or newline-terminated text and otherwise only adds the newline. |
| `ConfigText.SplitOfJoin` | config/config.go:2519-2537 | Splitting what was joined gives the lines back, a single empty line excepted. |
| `ConfigText.InsertLines` | config/config.go:2678-2690 | The block goes in at the position cut to the file; all other lines stay. |
| `ConfigText.UpsertTomlRawKey` | config/config.go:2724-2747 | For any start and end the loop upserts within the lines cut to the file: the first matching line is rewritten, else one line is added behind the range. |
| `ConfigText.UpsertTomlStringKey` | config/config.go:2692-2710 | The same with a quoted value. |
| `ConfigText.ReplaceTomlStringKeyLine` | config/config.go:2712-2720 | Indentation, key, quoted value and comment make the rewritten line. |
| `ConfigText.PatchTopLevelField` | config/config.go:2410-2443 | The written text is the formatted text with the top-level patch. |
| `ConfigText.PatchSectionField` | config/config.go:2447-2491 | The written text is the formatted text with the section patch. |
| `ConfigText.SectionPatchReads` | config/config.go:2447-2491 | Reading the written file back gives the patched value, after formatting. |
| `ConfigText.SectionPatchKeeps` | config/config.go:2447-2491 | Every other value the file had, in any section, is still read from the written file. |
| `ConfigText.TopPatchReads` | config/config.go:2410-2443 | The same for a top-level patch; every other top-level key reads exactly as before. |
| `RawGroups.GroupsOfFlat` | config/config.go:2539-2553 | Lines glued together from header-led groups are cut into exactly these groups. |
| `RawGroups.GroupsCover` | config/config.go:2539-2560 | Cutting at every matching header covers all lines, and every group starts with its header and has no other. |
| `ProjectSpans.CollectStarts` | config/config.go:2540-2545 | The collecting loops return the numbers of exactly the matching lines, in order. |
| `ProjectSpans.ScanPlatform` | config/config.go:2622-2641 | The scan of a platform finds its type line in the main table and its first options section with the section's last line. |
| `ProjectSpans.BuildRawProjectSpans` | config/config.go:2539-2647 | The spans are those of the cut into projects, platforms and options sections. |
| `ProjectSpans.StartsGiveGroups` | config/config.go:2551-2561 | The collected starts, with "one before the next start or the end" as last line, delimit exactly the groups of the cut. |
| `PlatformEdit.SpanAt` | config/config.go:2193-2207 | As many spans as projects, in each as many as platforms, and each where its platform is. |
| `PlatformEdit.EditAround` | config/config.go:2209-2225 | Exchanging a platform is exchanging the lines of its span and no others. |
| `PlatformEdit.EditFrame` | config/config.go:2193-2241 | Exchanging one platform's lines changes no other project or platform and none of their numbers. |
| `PlatformOptions.UpsertIsSet` | config/config.go:2224-2225 | An upsert between the options header and the end of its section sets the option of that platform. |
| `PlatformOptions.SetAllReads` | config/config.go:2224-2241 | After all upserts every option reads what its last setting says, or as before. |
| `PlatformOptions.SetAllFrame` | config/config.go:2224-2241 | The platform's own keys and its other sections read as before. |
| `PlatformOptions.WithOptionsReads` | config/config.go:2209-2222 | Creating the options section changes no value. |
| `PlatformReading.OptionIsRead` | config/config.go:2539-2647 | In a file that has a project, a platform and its options section, whatever stands in front of and behind them, the options are the lines of that section. |
| `PlatformReading.SpanOfFile` | config/config.go:2622-2641 | The span of that platform has the line numbers of its header, its first type line, its options header and the last line of its options. |
| `WeixinCredentials.ChoosePlatform` | config/config.go:2113-2166 | The argument tests, the search by name and the choice among the Weixin platforms, with their errors in order. |
| `WeixinCredentials.SaveWeixinPlatformCredentials` | config/config.go:2106-2253 | The whole operation, from text and parsed configuration to the written text or the error; rebuilding the spans after each insert or upsert never leaves their range. |
| `WeixinCredentials.SaveLines` | config/config.go:2193-2241 | The line edits succeed exactly when the raw text has the platform, and exchange that platform's lines for the saved ones. |
| `WeixinCredentials.SaveFrame` | config/config.go:2193-2241 | After the save the numbers of projects and platforms, and the lines of all others, are unchanged. |
| `WeixinCredentials.SaveReads` | config/config.go:2224-2241 | Every written option reads back from the edited lines; every other option reads as before. |
| `WeixinCredentials.SaveKeepsPlatform` | config/config.go:2224-2241 | The platform's own keys and its other sections read as before. |
| `WeixinChoice.ChosenIff` | config/config.go:2113-2166 | Platform p of project i is chosen exactly if the arguments are in order, i is the first project with the name, and p is its Weixin platform of the wished number, counted from one, zero meaning the first. |
| `WeixinChoice.ChoiceFailsIff` | config/config.go:2113-2166 | Each of the six failures happens exactly under its own condition on the arguments and the count of Weixin platforms. |
| `WeixinChoice.SaveWrites` | config/config.go:2224-2241 | For a file without empty project or platform header: under the literal keys token, base_url, cdn_base_url and account_id the written text has the trimmed values that the update gives. |
| `WeixinChoice.SaveAddsUser` | config/config.go:2168-2192 | A scanned user is on the written allow list, with everybody who was on it before, or the list is universal. |
| `WeixinChoice.ListStays` | config/config.go:2168-2192 | Without a scanned user the reported list is the old one, trimmed. |
| `WeixinChoice.SaveKeepsTheRest` | config/config.go:2224-2241 | Keys whose argument is blank, the allow list without a scanned user, and all other keys read as before in the chosen platform. |
| `FormatGroups.FormatKeepsCountIff` | config/config.go:1304-1370 | Formatting keeps the number of headers of one kind if and only if none of them is empty, and otherwise loses exactly the empty ones. |
| `FormatGroups.EmptyArrayIsLost` | config/config.go:1307-1329 | Two array headers in a row, the first without content: one is left. |
| `FormatGroups.WrittenCountIff` | config/config.go:3089-3090 | The same for the written file, by groups. |
| `FormatGroups.WrittenOption` | config/config.go:3089-3090 | An option that can be read from the lines of a file without empty project or platform header can be read from the written file, at the same place. |
| `WeixinRoundTrip.SaveThenRead` | config/config.go:2106-2253 | End to end, for a file without empty project or platform header: from the written text every option the update gives reads back its quoted value. |
| `WeixinRoundTrip.SaveThenDecode` | config/config.go:2106-2253 | And decoded as a TOML string, what is read is the value itself if and only if the value has no character whose Go escape TOML lacks. |
| `WeixinRoundTrip.SaveKeepsOthers` | config/config.go:2106-2253 | Every other value in any platform's options reads as before. |
| `WeixinRoundTrip.SaveKeepsCounts` | config/config.go:2106-2253 | The written text has the same number of projects and of platforms in each. |
| `WeixinRoundTrip.SaveKeepsProjectsIff` | config/config.go:2106-2253 | Without that condition: the number of projects is kept if and only if no project header was empty. |

## Left out

- Inline auto-compress (`core/engine.go:4215-4239`) and the `/compress` worker: the switch is taken to be off.
- The event reader that starts after the drain has unlocked the session (`core/engine.go:2634-2646`), and stopping the running message on recall beyond the discard it causes.
- Idle auto-reset and session rotation (`core/engine.go:2108-2137`): one session object per key.
- The queue lookup of a recall and its compaction are one step on the map's current entry; a turn, from its prompt to its last event, is opaque but for the pops from the queue.
- Panics in agents, the reply texts, hooks, cards, i18n, HTTP and platform code.
- The agent and provider fields of a project span (`config/config.go:2565-2602`): other editors use them; the loops have the shape of the ones modelled.
- The raw text and the parsed configuration come in separately: the TOML library is not modelled, so that a project index means the same in both is not proved. Array headers inside multi-line strings are cut like any other line, as the code does.
- Slices are values in the editor: the source overwrites `lines[i]` in place and returns the slice, and every caller goes on with the result only.
- `strconv.Quote` escapes for characters beyond ASCII that are not printable, and invalid UTF-8: such characters stand for themselves here.
- Reading and writing files, the temporary file and rename of a write, and the errors of both, except a failed save in a cron add.
- Cron jobs are values: the pointer a caller keeps to a stored job is not modelled; the expression parser and the session-mode normalisation are parameters; store and scheduler calls do not interleave.
- Heartbeat tickers and runs; loading the directory history from disk.
- Floating point and timer resolution in the rate limiter: tokens and times are reals. The limiter's lock is held for one attempt, and attempts of several callers follow one another.
- Preview outages and tool or thinking events inside a streamed segment, and stripping a trailing marker.
- PendingQueue.Session.Unlock: does not model the update time that the unlock sets, because nothing else here reads it.
- BusyDelivery.NoOrphan: stated for runs in which starts succeed and nothing dies, is stopped or shut down, because those steps leave or drop queued messages by design; the ledger covers them.
- WeixinRoundTrip.SaveThenRead: finds the option with the editor's own lookup, not with the TOML library; SaveThenDecode decodes the text found.
- TomlComments.CommentIsTomlsIff: reads one line at a time, as the scanner does; a string that goes over several lines is not followed from one line to the next.
