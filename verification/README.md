# StudioFire playout, modelled and proved

StudioFire is radio automation that promises never to go silent. This project models the parts that carry
that promise and proves what they keep, for every input, every run and every interleaving.

- **The engine** (`QueueStore`, `Playout`, `PlayoutSafety`, `PlayoutSounding`, `PlayoutRuns`,
  `PlayoutLedger`, `PlayoutChoice`, `PlayoutAir`, `PlayoutDecks`, `PlayoutSwitches`, `Supervisor`). One
  owner thread handles mutations, operator commands, end-of-file reports, crossfade reports, dead players
  and restarts, over two decks, a versioned queue with a play-head and two emergency flags. `Playout` says
  what each handler makes of the state. Nothing is assumed of the outside world: every question put to the
  disk takes the next answer of an oracle, and the same question may be answered differently the next time.
  `Supervisor` is the engine as it runs, two deck objects and a queue object changed in place, each handler
  proved to end in the state `Playout` names. The ledger in the state is bookkeeping of the model, and
  `PlayoutLedger` ties it to the journal.
- **The feeder** (`Feeding`, `Inserts`, `ShowOverlay`, `Spots`). The batch that tops up the engine's queue
  and the lookahead that simulates it, pinned inserts against delayed eviction passes, the show that
  interrupts the rotation, and the rules that fire spots.
- **The calendar** (`Schedule`, `Spots`). Instants are microseconds of local time since a Monday at midnight
  and dates are day numbers.
- **The library index** (`Indexer`). The depth-first walk over a tree with unreadable folders, and the climb
  that proves a file gone.
- **The journal** (`Journal`). Torn tails, rotation, offsets, crashes of the reader, and the dedupe.
- **Smaller cores** (`Lst`, `Updater`, `MpvIpc`). The `.lst` printer and parser, the updater's file swap with
  its rollback, and line framing with reply correlation.

Where the source changes state in place the model is a class, and its methods are proved against functions
on values; the lemmas are about those functions and their runs. The file `dfyconfig.toml` lists the project.

## Where the code falls short

Each of these is a lemma with a concrete case, or the exact condition under which the code keeps its word.

- `QueueStore.ReorderKeepsEntries`, `QueueStore.ReorderCanDuplicate`: a reorder that names a pending id twice
  makes that entry air twice (services/engine/queue_store.py:165).
- `QueueStore.AppendedIsPending`, `PlayoutRuns.AppendedIsLost`: the state file may hold a play-head equal to
  the queue's length (services/engine/queue_store.py:92); whatever file it is, the entry appended next is then
  never next, and lost.
- `PlayoutSafety.FillerEnded`: the header of the supervisor says an emergency ends as soon as a playable item
  exists (services/engine/supervisor.py:33); the code asks about the next entry alone (line 857). The model
  follows the code.
- `PlayoutChoice.CrashInsideEmergencyButton`: the emergency button saves one flag before the other
  (services/engine/supervisor.py:957-967); a crash between the two saves can leave the queue on air with the
  operator's emergency still set. The station is not silent even then, and loses no song
  (`PlayoutRuns.NeverSilent`, `PlayoutRuns.NoSongLost`).
- `Schedule.NextOccurrenceRefinesDue`, `Schedule.FiredInTheFuture`: eight days of search miss a row exactly when
  it is already marked for the one open day among them and runs on for another week, which only a wall clock
  set back can bring about.
- `ShowOverlay.TickStartsExactly`, `ShowOverlay.ReusedIdNeverAirs`: a due row is not started exactly when it bears
  the id of the show still on air; a row that takes over the id of a deleted one is so retired without airing.
- `Spots.FailureGivesUp`, `Spots.StaleFailureCutsRetriesShort`: a failed insert is remembered past its clock mark
  (services/core/engine_bridge.py:809), so the next mark may get no retries.
- `Inserts.FedFilesSurvive`, `Inserts.OldHitIsEvicted`: a cache hit is not stamped anew
  (services/core/engine_bridge.py:177-181), so an insert accepted between a snapshot and its eviction pass can
  lose its file; the feed's files are there throughout a run exactly when every pass spares them.
- `Journal.UnnoticedCosts`, `Journal.UnnoticedRotationSkips`: a rotation shows only if the new file is shorter than
  the saved offset (services/core/engine_bridge.py:1110); what an unnoticed one costs is told exactly.
- `Updater.Install.Apply`, `Updater.StaleFileStays`: a removal that fails is passed over
  (services/updater.py:449-453), so a done update is the release, and a rolled-back one the tree before, exactly
  when no removal of a stale file failed.

## Model

| member | source | states |
|---|---|---|
| QueueStore.CompareAndSwap | services/engine/queue_store.py:132-142 | For any number of clients: a known mutation sent as the observed version plus one is accepted if and only if nothing was accepted since, it then acts on the very queue observed, and refused it changes nothing |
| QueueStore.VersionsGrow | services/engine/queue_store.py:139-181 | The version never falls over any sequence of mutations; it rises exactly when one was accepted, and otherwise the queue is untouched |
| QueueStore.ReorderKeepsEntries | services/engine/queue_store.py:158-166 | A reorder keeps the bag of pending entries if and only if it names no pending id twice |
| QueueStore.ReorderFollowsOrder | services/engine/queue_store.py:158-168 | An accepted reorder of distinct ids puts the pending entries it names first, in the order asked, and lets all others follow in the order they had; ids not pending change nothing |
| QueueStore.CuedIsNext | services/core/engine_bridge.py:1298-1317 | Asking for one pending entry makes it the very next |
| QueueStore.RemoveKeepsOrder | services/engine/queue_store.py:169-178 | A removal leaves the other pending entries in the order they had |
| QueueStore.NamedFollowsOrder | services/engine/queue_store.py:158-166 | Pending ids named once come out in the order asked for |
| QueueStore.PlayedPartImmune | services/engine/queue_store.py:144-180 | Only a replacement touches what played or is on air; entries inserted next come straight after it in their order, appended ones last; a removal takes exactly the pending entries named; a reorder loses none |
| QueueStore.ReorderCanDuplicate | services/engine/queue_store.py:164-165 | The smallest reorder that makes one pending entry pending twice |
| QueueStore.AppendedIsPending | services/engine/queue_store.py:80-94 | An appended entry becomes the last pending one if and only if the stored play-head is a real index; one past the end is admitted and loses it |
| QueueStore.QueueState.NextEntry | services/engine/queue_store.py:50-54 | The entry after the play-head, or none |
| QueueStore.QueueState.TrimHistory | services/engine/queue_store.py:56-67 | Only played entries go: the entry on air and all pending ones stay, with at most `keep` behind them, and the count dropped is exact |
| QueueStore.QueueState.ApplyMutation | services/engine/queue_store.py:132-181 | In place, every operation's whole new queue, and the verdict: stale, unknown or accepted |
| QueueStore.Trim | services/engine/queue_store.py:56-67 | The pending part and the entry under the play-head are unchanged, and the play-head is at most `keep` |
| PlayoutRuns.NeverSilent | services/engine/supervisor.py:339-381 | From any state file whatever, after the start-up kick and any run of owner actions (stale reports, dead players, engine restarts, any answers from the disk): exactly one deck is on air and it is the one held to be; its player is paused if and only if the operator's last word was to pause, or to stop after a song that has ended; it carries filler exactly in emergency, and otherwise the entry under the play-head unless the queue was replaced beneath it; a preloaded deck holds the next entry, and none is preloaded while a flag is up. Unless the file was left half-way through the emergency button, all of `Live` holds: forced implies emergency, the entry on air is under the play-head, and the next one is ready |
| PlayoutSounding.StepSounds | services/engine/supervisor.py:339-359 | Every single owner action keeps somebody on air, whatever the flags |
| PlayoutSwitches.StartsPlaying | services/engine/supervisor.py:239-296 | A start puts something on air from any state file, and it is heard: neither switch is set and the player is not paused |
| PlayoutRuns.AdvanceHeals | services/engine/supervisor.py:763-789 | Once the forced flag does not stand alone, a skip, a kick or the end of the item on air restores the whole live state |
| PlayoutSwitches.SwitchLaw | services/engine/supervisor.py:921-954 | From any state: a pause pauses, a resume releases, the stop-after button flips its order, a start clears both, the held end of a song pauses and spends the order; nothing else moves either switch |
| PlayoutSwitches.PauseIsHeard | services/engine/supervisor.py:929-946 | A pause stops the player of every deck that is heard, the fading one too, a resume starts them again, and neither changes anything else but the journal |
| PlayoutSwitches.StopAfterFlips | services/engine/supervisor.py:947-954 | The button changes its own order and writes its line, no more; twice, nothing but the journal has changed |
| PlayoutSwitches.StopAfterHolds | services/engine/supervisor.py:430-439 | Armed, the end of the song on air puts the first playable pending entry on air paused, and the order is spent |
| PlayoutSwitches.PausedOnlyByOperator | services/engine/supervisor.py:921-980 | Over any run from any state file the engine is paused if and only if somebody paused it, or a stop-after order was carried out, and nobody has resumed and it has not started since |
| PlayoutSafety.StepLive | services/engine/supervisor.py:339-359 | Every single owner action keeps all of that |
| PlayoutSafety.StoppedOnAir | services/engine/supervisor.py:472-479 | Once the on-air deck is stopped a free deck always exists, so the fallback to the first deck is never used |
| PlayoutSafety.OnlyOneProgramme | services/engine/supervisor.py:6-22 | At most one song is ever heard beneath the item on air, and only a song; a spot or filler is at full volume throughout |
| PlayoutSafety.StaleReportsIgnored | services/engine/supervisor.py:392-402 | A report from a replaced player, or about an earlier file of a deck, changes nothing at all |
| PlayoutSafety.GoOnAirLive | services/engine/supervisor.py:492-516 | From any state with nothing on air, going on air restores the whole invariant with exactly the item asked for |
| PlayoutSafety.AnnounceHead | services/engine/supervisor.py:518-541 | A queue item announced becomes the entry under the play-head and ends the emergency; filler moves nothing |
| PlayoutSafety.EnsurePreloadedLive | services/engine/supervisor.py:554-579 | Preparing the next item leaves what is on air, the play-head and the history alone, and ends with the next entry primed |
| PlayoutSafety.AdvanceOrFailLive | services/engine/supervisor.py:763-782 | However an advance goes, it lands with something on air |
| PlayoutSafety.EnterEmergencyLive | services/engine/supervisor.py:840-875 | Failover lands on air; it stays in emergency exactly when the very next entry was not usable, and otherwise airs that entry |
| PlayoutSafety.OnMutationLive | services/engine/supervisor.py:898-919 | A mutation, accepted or not, keeps the invariant, the forced flag and the version arithmetic |
| PlayoutSafety.OnDeckDeadLive | services/engine/supervisor.py:1049-1076 | Replacing either player, on air or not, ends on air |
| PlayoutSafety.ForcedEmergencyHolds | services/engine/supervisor.py:784-789 | From a pressed emergency button until its release, over any actions, only filler goes on air and both flags hold |
| PlayoutSafety.ForcedStep | services/engine/supervisor.py:840-883 | One owner action other than the release starts nothing but filler and leaves the flag set |
| PlayoutSafety.EmergencyPressed | services/engine/supervisor.py:955-967 | Pressing the button puts filler on air and starts nothing else on the way |
| PlayoutSafety.FillerEnded | services/engine/supervisor.py:852-864 | When filler ends, the emergency ends if and only if the button is not held and the very next entry is playable at that moment |
| PlayoutSafety.StepVersion | services/engine/supervisor.py:898-905 | Nothing but an accepted mutation moves the version, restarts included |
| PlayoutSafety.EngineCompareAndSwap | services/core/engine_bridge.py:1263-1278 | Whatever the engine did since a client saw its status, the client's mutation is accepted if and only if no other was; refused, it leaves the whole engine untouched |
| PlayoutRuns.NoSongLost | services/engine/supervisor.py:518-541 | From any state file with distinct ids and a play-head within the queue, over any run with fresh ids, every entry ever accepted is in exactly one place, once: pending, played before, aired as the journal says, dropped with a journalled skip, or removed by an accepted mutation |
| PlayoutRuns.AppendedIsLost | services/engine/queue_store.py:90-94 | From any state file with the play-head past the end, the first entry appended is accepted and then is nowhere |
| PlayoutLedger.StepFlow | services/engine/supervisor.py:763-782 | Every owner action but an accepted mutation uses pending entries strictly from the front, each aired or dropped; the rest keep their order |
| PlayoutLedger.StepBooks | services/engine/supervisor.py:581-589 | Every owner action keeps the books: one place for each entry, and the journal in step |
| PlayoutLedger.RequeuedQueue | services/engine/queue_store.py:144-180 | What a mutation brings in plus what was pending equals what is pending plus what it takes out, with ids still distinct |
| PlayoutLedger.OnMutationBooks | services/engine/supervisor.py:898-919 | A mutation and all the engine does in answer keep the books |
| PlayoutLedger.PreloadedIsNext | services/engine/supervisor.py:554-579 | With one entry per id, what is preloaded is the next entry itself, so a failed load drops the right one |
| PlayoutLedger.OnAirIsCurrent | services/engine/supervisor.py:518-526 | With one entry per id, what a live engine has on air is the entry under the play-head itself |
| PlayoutLedger.FlowAccounts | services/engine/supervisor.py:518-589 | Using entries from the front, aired or dropped, preserves the one-place-each account |
| PlayoutChoice.EveryChoiceVouched | services/engine/supervisor.py:554-589 | In every action each track started was answered playable (or offered as filler) during that action, and each entry skipped was answered unplayable or refused by its player |
| PlayoutChoice.SkipAndTrackEndChoose | services/engine/supervisor.py:763-782 | Out of emergency, a skip and a track's end air the first pending entry the disk calls playable, filler only if there is none; told to hold, they pause before the entry found and the order is spent, and otherwise neither switch moves |
| PlayoutChoice.ChoiceIsFirst | services/engine/supervisor.py:771-781 | The entry chosen is the earliest playable one, everything before it having just been refused |
| PlayoutChoice.CrashInsideEmergencyButton | services/engine/supervisor.py:955-967 | Restarted from between the button's two saves, the engine is in order if and only if no pending entry is playable |
| PlayoutAir.NothingElseCutsTheAir | services/engine/supervisor.py:339-359 | In every owner action the item on air plays on, on the same deck, unless the action is its own end, death or crossfade, a skip, the emergency button or its release, a start, a replaced queue, or a mutation in an emergency not held |
| PlayoutAir.CrossfadeOverlaps | services/engine/supervisor.py:604-637 | A crossfade report starts the next entry on the other deck over the fading song, a song from silence and a spot at full volume, if and only if it is about the song on air and nothing stands against it; otherwise decks and queue stay as they are |
| PlayoutAir.FillerTakesTurns | services/engine/supervisor.py:865-871 | Under the button, with a filler list that does not change, the n-th item to come is the n-th file in turn, starting over at the end |
| PlayoutAir.BakedInLoops | services/engine/supervisor.py:872-875 | With no filler file playable the baked-in source is on air, and loops |
| PlayoutDecks.EveryAdvanceChooses | services/engine/supervisor.py:763-789 | Out of emergency, a skip, the end of the item on air, its player's death, a start and a replaced queue all air the first pending entry the disk calls playable, filler only if there is none |
| PlayoutDecks.EmergencyEnds | services/engine/supervisor.py:852-864 | In emergency, each of those, any accepted mutation and the button's release end it if and only if the button is not held and the very next entry is playable; that entry then airs |
| PlayoutDecks.PlayNowAirs | services/core/engine_bridge.py:1306-1317 | A pending entry cued to the front and skipped to is on air, if its file is playable throughout |
| PlayoutDecks.HardCutSilencesTail | services/engine/supervisor.py:910-927 | After a skip, the emergency button or a replaced queue no fading tail is left |
| PlayoutDecks.DropsUnplayableOnly | services/engine/supervisor.py:559-562 | Preparing the next item drops exactly the unplayable entries in front of the first playable one |
| PlayoutDecks.FirstPlayableIs | services/engine/supervisor.py:559-562 | That entry was answered playable, and each before it unplayable, asked in order |
| PlayoutDecks.PreparedStays | services/engine/supervisor.py:570-573 | What is prepared already is not loaded again |
| PlayoutDecks.SkipUsesPreloaded | services/engine/supervisor.py:492-498 | A skip airs the preloaded item from the very load it was prepared with |
| PlayoutDecks.LoadsAreStamped | services/engine/supervisor.py:481-490 | A deck put on air by a load bears that load's id, so a late report of the file before is told apart |
| PlayoutDecks.FailedPreloadDropped | services/engine/supervisor.py:420-426 | A preloaded item its player cannot load leaves the pending entries with a journalled skip |
| PlayoutDecks.DeadPlayerForgotten | services/engine/supervisor.py:1049-1076 | A replaced player has a new identity, and nothing its predecessor still reports changes anything |
| PlayoutDecks.RampMoves | services/engine/supervisor.py:681-699 | The mixer sets the volume of a fading deck, ends a fade-in at full volume, and touches no other deck |
| PlayoutDecks.ModeChangesJournalled | services/engine/supervisor.py:840-883 | An action that begins or ends an emergency has written so in the journal, and a believed end of a file is written first of all |
| Supervisor.EngineSupervisor.constructor | services/engine/supervisor.py:204-254 | A new engine is the state before the first start |
| Supervisor.EngineSupervisor.Perform | services/engine/supervisor.py:339-381 | The dispatch in place makes exactly the step of the state machine; an engine with somebody on air keeps somebody on air, and a live one stays live |
| Supervisor.EngineSupervisor.HandleEndFile | services/engine/supervisor.py:392-428 | The handler in place: stale reports ignored, else by the deck's role |
| Supervisor.EngineSupervisor.OnAirEnded | services/engine/supervisor.py:430-439 | The end of the item on air, in place |
| Supervisor.EngineSupervisor.FreeDeck | services/engine/supervisor.py:472-479 | The deck holding the next item first, else an idle one, never the one on air |
| Supervisor.EngineSupervisor.Load | services/engine/supervisor.py:481-490 | A file loaded paused, and everything else on both decks unchanged |
| Supervisor.EngineSupervisor.GoOnAir | services/engine/supervisor.py:492-516 | Going on air in place, its load, fade, announcement, hold and preparation of the next item together |
| Supervisor.EngineSupervisor.Announce | services/engine/supervisor.py:518-541 | Play-head, trimmed history, saved state, emergency exit and journal, in place |
| Supervisor.EngineSupervisor.EnsurePreloaded | services/engine/supervisor.py:554-579 | The loop over unplayable entries ends, and leaves the state the state machine names |
| Supervisor.EngineSupervisor.DropPending | services/engine/supervisor.py:581-589 | The entry leaves the pending part only, with its skip journalled and the queue saved |
| Supervisor.EngineSupervisor.HandleXfadeDue | services/engine/supervisor.py:604-637 | The crossfade in place, with every condition under which it is declined |
| Supervisor.EngineSupervisor.Ramp | services/engine/supervisor.py:681-699 | The mixer changes nothing but a fading deck's volume, and the end of a fade-in |
| Supervisor.EngineSupervisor.AdvanceOrFail | services/engine/supervisor.py:763-782 | The scan in place ends in the state of its recursive description |
| Supervisor.EngineSupervisor.EnterEmergency | services/engine/supervisor.py:840-850 | The failover in place |
| Supervisor.EngineSupervisor.PlayNextEmergency | services/engine/supervisor.py:852-875 | The queue again if it may and can be aired, else the next filler in turn |
| Supervisor.EngineSupervisor.PlayFiller | services/engine/supervisor.py:865-875 | Filler in rotation, the baked-in source looped when there is none |
| Supervisor.EngineSupervisor.HandleMutation | services/engine/supervisor.py:898-919 | The verdict, the new queue and the engine's reaction to it, in place |
| Supervisor.EngineSupervisor.HandleOp | services/engine/supervisor.py:921-980 | Each operator command in place, whether it is known, and the two switches after it |
| Supervisor.EngineSupervisor.RestartDeck | services/engine/supervisor.py:1049-1076 | A dead player replaced in place, the air retaken if it had it |
| Supervisor.EngineSupervisor.Start | services/engine/supervisor.py:261-296 | The start from the state file, in place; it comes up playing |
| Schedule.NextOccurrenceRefinesDue | services/core/schedule.py:214-253 | For any recurring row: given an answer, the row first becomes due at exactly the later of now and that answer; given none, it never becomes due if and only if it is not missed, that is, not already marked for the one open day of the eight while running on for another week |
| Schedule.EightDaysSuffice | services/core/schedule.py:241-252 | A row not marked for a later date is never missed, whatever its weekdays, run window and catch-up |
| Schedule.FiredInTheFuture | services/core/schedule.py:248 | An instance: a Monday show marked for the coming Monday is missed, and is due the Monday after |
| Schedule.FindNextOccurrence | services/core/schedule.py:214-253 | The bounded loop computes that answer |
| Schedule.Due | services/core/schedule.py:351-371 | The waiting row whose time has come: a recurring one first, else the earliest one-time row; none exactly when nothing is ripe |
| Schedule.DueIsUnique | services/core/schedule.py:351-371 | That description singles out one row |
| Schedule.OneTimeOccurs | services/core/schedule.py:214-226 | A one-time row is due from its announced time on |
| ShowOverlay.ShowsAirAtMostOnce | services/core/engine_bridge.py:431-487 | From any table, over any run of ticks, starts, stops, additions and removals, a one-time row goes on air at most once and a recurring row fires by itself at most once a date |
| ShowOverlay.TickInv | services/core/engine_bridge.py:879-890 | After every completed tick the rows marked as playing are at most the overlay's |
| ShowOverlay.DueShowStarts | services/core/engine_bridge.py:472-487 | The show that is due takes the air in that very tick over any other, its row alone marked as playing, a recurring one marked for the date |
| ShowOverlay.FinishedRests | services/core/engine_bridge.py:452-459 | When its show ends a recurring row waits again if and only if its stop date has not passed, any other row is done, and no other is touched |
| ShowOverlay.TickRows | services/core/engine_bridge.py:879-890 | Every row after a tick: the one started plays and is marked if recurring, the show that ended and any stray rest, waiting rows past their stop date are done, all others are as they were |
| ShowOverlay.RecurringShowReturns | services/core/schedule.py:171-181 | A recurring show that ended inside its run window is due again at the very moment its next occurrence is announced for and not before, and the tick at that moment starts a show |
| ShowOverlay.RipeShowStarts | services/core/engine_bridge.py:472-487 | The tick at a waiting row's moment starts a show, and that row if no other is ripe |
| ShowOverlay.ByHand | services/core/engine_bridge.py:489-528 | A show started by hand is on air at once and its row alone plays; one stopped leaves nothing on air and its row at rest |
| ShowOverlay.StepInv | services/core/engine_bridge.py:489-528 | Every action keeps that no row already aired waits again |
| ShowOverlay.TickStartsExactly | services/core/engine_bridge.py:472-487 | A tick starts a show if and only if a row is due and does not bear the id of a show still on air |
| ShowOverlay.ReusedIdNeverAirs | services/core/engine_bridge.py:478-479 | An instance: a row given the id of a deleted one on air is never started, and is retired |
| ShowOverlay.ShowRunner.Finish | services/core/schedule.py:171-181 | One-time rows retire; recurring ones wait again inside their run window |
| ShowOverlay.ShowRunner.FinishAllPlaying | services/core/schedule.py:184-199 | Every row marked as playing but the exception is finished, and no other touched |
| ShowOverlay.ShowRunner.Expire | services/core/schedule.py:202-211 | Waiting recurring rows past their stop date retire, and no other |
| ShowOverlay.ShowRunner.StartOverlay | services/core/engine_bridge.py:431-450 | Strays finished, the row marked and its date recorded, in place |
| ShowOverlay.ShowRunner.FinishOverlay | services/core/engine_bridge.py:452-459 | The show's row finished and the overlay cleared, in place |
| ShowOverlay.ShowRunner.RunTick | services/core/engine_bridge.py:461-487 | The show part of a tick in place, firing exactly the row that is due |
| Spots.ClockSlot | services/core/spots.py:192-220 | The latest mark over all hours no older than the grace, for any minutes and any grace, though two hours are scanned |
| Spots.ClockSlotUnique | services/core/spots.py:192-220 | There is one such answer |
| Spots.IsDueNow | services/core/spots.py:223-248 | Each trigger's rule, with the clock mark taken over all hours |
| Spots.SpotsAirOnTimeAndOnce | services/core/engine_bridge.py:778-821 | Over any non-decreasing tick times and any insert failures: never early, never after the grace, never outside the run window; each clock mark and each date at most once, intervals a full interval apart, a one-off once |
| Spots.FiresAgainExactly | services/core/spots.py:223-248 | A rule that fired before fires if and only if the time is right and a later mark, another date or a full interval sets it apart from that firing |
| Spots.FiresFirstExactly | services/core/spots.py:223-248 | A rule that never fired, or a one-off, fires as soon as the time is right, an interval counting from when the rule was made |
| Spots.DueRuleAirs | services/core/spots.py:147-154 | A due rule whose insert goes through airs in that tick and forgets its failures; a one-off is then disabled |
| Spots.FailureGivesUp | services/core/engine_bridge.py:809-818 | A failed insert gives the rule up if and only if the remembered first failure is ten minutes old; otherwise it stays due |
| Spots.StaleFailureCutsRetriesShort | services/core/engine_bridge.py:809-818 | A failure at one mark makes the next mark's first failure its last |
| Spots.SpotRules.FireDue | services/core/engine_bridge.py:778-821 | One pass over all rules in place, each as its own tick |
| Inserts.ReconciledExactly | services/core/engine_bridge.py:841-863 | An entry is kept if and only if the status lists it, which releases its pin, or its pin still holds; nothing else appears |
| Inserts.ReconciledJoin | services/core/engine_bridge.py:852-863 | The feed keeps its order, entry by entry |
| Inserts.AcceptedStays | services/core/engine_bridge.py:841-863 | An accepted insert stays, pinned, over any ticks, inserts and eviction passes, until a status lists it, the queue is dropped or two minutes pass |
| Inserts.LapsedPinGoes | services/core/engine_bridge.py:761-776 | A pin never observed is let go by the first reconcile after that |
| Inserts.EvictHolds | services/core/engine_bridge.py:989-998 | The feed's files all survive a pass if and only if each is in its snapshot, looked ahead to, or newly copied |
| Inserts.SnapshotProtects | services/core/engine_bridge.py:1001-1011 | The file on air at a snapshot, and each then in the feed, survives that pass however late it runs |
| Inserts.FedFilesSurvive | services/core/engine_bridge.py:989-1011 | For every interleaving of ticks, inserts and delayed passes, the file of every fed entry is in the cache at every moment if and only if entries join with their file cached and each pass, when it runs, spares the feed's files: in its snapshot, looked ahead to, or copied within ten minutes |
| Inserts.CarefulRunsAreSafe | services/core/engine_bridge.py:989-1011 | It is enough that entries join with a file newer than the open snapshots, or in them, and that no pass is ten minutes late |
| Inserts.OldHitIsEvicted | services/core/engine_bridge.py:177-181 | An insert of a file copied long ago, accepted between snapshot and pass, loses its file |
| Inserts.FeederBook.Perform | services/core/engine_bridge.py:823-999 | Every step in place; the feed's files stay cached through it if and only if it is gentle, and a careful one keeps them safe from the passes still to run |
| Inserts.FeederBook.ReconcileFed | services/core/engine_bridge.py:841-863 | The reconcile in place |
| Inserts.FeederBook.EvictExcept | services/core/engine_bridge.py:202-223 | In place, a file goes if and only if it is not to be kept and was copied ten minutes ago or more; and how many went |
| Inserts.FeederBook.RunPass | services/core/engine_bridge.py:993-998 | A pass in place, from the snapshot it took |
| Feeding.LookaheadFollowsFeed | services/core/engine_bridge.py:1032-1084 | On an unchanging disk: whatever the lookahead covers and however much is fed, one is a prefix of the other, and once as much is fed the lookahead is a prefix of the feed |
| Feeding.StillFeeds | services/core/engine_bridge.py:915-966 | What an unchanging disk gives for a list of items does not depend on when it is asked |
| Feeding.UpcomingSplit | services/core/engine_bridge.py:303-331 | Feeding in parts is feeding at once: the programme after some items continues where they ended |
| Feeding.WrapIsRemainder | services/core/engine_bridge.py:315-319 | The rotation's wrapping cursor is the remainder |
| Feeding.Feeder.NextResolved | services/core/engine_bridge.py:303-331 | For any answers of the disk: every item passed over was answered unresolvable when asked, and the one found resolved to the file returned; the cursor is just past it; a rotation wraps and answers none only after a whole lap, a show ends |
| Feeding.Feeder.CacheLookahead | services/core/engine_bridge.py:1032-1084 | On copies of the cursors: the real ones do not move; what is kept is exactly what the disk and cache gave for the items due next; the scan stops when they cover the time wanted, the looks are spent or nothing is left, and not later |
| Feeding.Feeder.FeedBatch | services/core/engine_bridge.py:915-966 | Ends for any answers of disk and cache; never more than 50, never deeper than the depth before or the target; the show in order first, then the rotation; exactly what the disk and cache gave for the items due next; it stops short only when nothing is left, a whole lap resolved nothing, or as many files were refused as there are items, so on an unchanging disk with every item good it is always filled |
| Feeding.Feeder.NextDue | services/core/engine_bridge.py:917-937 | The show while it lasts, else the rotation, and which of them it was |
| Feeding.Feeder.LookaheadThenTicks | services/core/engine_bridge.py:898-998 | A lookahead and then any number of ticks: both go through the same items from the same place, each with what the disk then gave; the show feeds each item at most once, in order, before the rotation; for plain files on an unchanging disk, what the lookahead covered is what is fed first |
| Indexer.Library.WalkPaths | services/worker/indexer.py:72-186 | One pass over a still tree makes of every row exactly what it should be, whatever is unreadable |
| Indexer.Library.Walk | services/worker/indexer.py:91-146 | `seen` is exactly the audio files whose folders from the root are all readable |
| Indexer.ProvenGone | services/worker/indexer.py:164-177 | The climb says gone if and only if no existing folder on the way is unreadable |
| Indexer.FlaggedExactly | services/worker/indexer.py:148-186 | A known row is flagged if and only if its file is absent and nothing on its path is hidden; hidden, it is left as it was |
| Indexer.PresentRowsAreFiles | services/worker/indexer.py:72-186 | With every folder readable, the present rows under the root are the audio files on disk, with their stamps |
| Indexer.TagsStayWithTheFile | services/worker/indexer.py:122-143 | A row counts as read after the pass if and only if it did before and its file is unchanged |
| Indexer.SecondPassChangesNothing | services/worker/indexer.py:124-133 | A second pass over the same tree changes no row |
| Indexer.UnreadableRootProvesNothing | services/worker/indexer.py:97-98 | With the root unreadable no row changes |
| Indexer.Library.ScanFolder | services/worker/indexer.py:99-143 | One folder's audio files recorded, others untouched, and its sub-folders returned |
| Indexer.Library.Record | services/worker/indexer.py:122-143 | An unchanged file is unflagged and keeps its tags; a new or changed one starts over |
| Indexer.Library.FlagGone | services/worker/indexer.py:179-186 | Of the known rows exactly the vanished unflagged ones are flagged |
| Journal.IngestedExactlyOnce | services/core/engine_bridge.py:1089-1162 | Over any writes, torn or whole, repairs, rotations, ingests and reader crashes, no event is surfaced twice; if every ingest notices the rotations before it, the offset is a line boundary of the file it belongs to, and after an ingest every complete event is in history |
| Journal.HistoryIsTheLines | services/core/engine_bridge.py:1089-1162 | With one event per id, after an ingest history holds each complete line's own event, and nothing else |
| Journal.UnnoticedCosts | services/core/engine_bridge.py:1110 | After an ingest that missed a rotation everything complete is in history if and only if each event passed over (the rest of the old file, later rotated files, the new file) was there already or is among the lines read |
| Journal.IngestStoresAll | services/core/engine_bridge.py:1089-1125 | One ingest with the writer idle and the rotation noticed stores all that is complete in every file |
| Journal.UnnoticedRotationSkips | services/core/engine_bridge.py:1110 | An instance: the first event of a new file grown to the saved offset is lost |
| Journal.LinesSplit | services/core/engine_bridge.py:1128-1137 | Reading on from a line boundary gives the lines of reading it all at once |
| Journal.NewStartsFresh | services/core/engine_bridge.py:1157-1159 | Surfaced events are track starts, new to history, and distinct |
| Journal.NewStartsExactly | services/core/engine_bridge.py:1157-1159 | An event is surfaced if and only if it is a track start that the lines brought into history |
| Journal.IngestSurfaces | services/core/engine_bridge.py:1110-1124 | An ingest surfaces exactly the track starts the active file's unread lines brought into history, none of rotated files |
| Journal.FreshStartSurfaces | services/core/engine_bridge.py:1128-1162 | A new track start written to a journal read to its end is stored and surfaced by the next ingest |
| Journal.StoredOnly | services/core/engine_bridge.py:1138-1156 | History gains nothing but events of the lines, each under its own id |
| Journal.StoredCovers | services/core/engine_bridge.py:1148-1156 | Every line's event is in history afterwards, and nothing there before is replaced |
| Journal.JournalFile.constructor | services/engine/journal.py:41-55 | Reopening ends a torn tail and leaves a file that ended well alone |
| Journal.JournalFile.Append | services/engine/journal.py:57-80 | An append adds exactly one line to those there, and the file rotates whole at its limit |
| Journal.JournalFile.RotateFile | services/engine/journal.py:91-103 | The active file moves away unchanged and an empty one takes its place |
| Journal.IngestLines | services/core/engine_bridge.py:1128-1162 | From an offset: the offset after the last complete line, the history with each new event, and the new track starts |
| Journal.JournalReader.IngestJournal | services/core/engine_bridge.py:1089-1125 | The whole pass in place, rotated files first when a rotation shows |
| Lst.PrintThenParse | services/core/playlists.py:50-86 | Parsing the exported text gives the same paths and positive lengths back, in order, if and only if every path has an audio extension, no line break and no outer white space |
| Lst.PrintAgain | services/core/playlists.py:207-227 | Exporting what was parsed back gives the identical text |
| Lst.ParseThenPrint | services/core/playlists.py:50-86 | Whatever text a playlist came from, its tracks survive export and import |
| Lst.ParseLst | services/core/playlists.py:50-86 | The parsing loop gives the tracks of the lines in order |
| Lst.ExportLst | services/core/playlists.py:207-227 | The printing loops give the count line and one line for each track, each ended |
| Lst.SplitEnded | services/core/playlists.py:226-227 | Lines that hold no break, printed, are split into the same lines again |
| Lst.SplitEndedBy | services/core/playlists.py:66 | A playlist written with the line ends of Windows, Unix or old Macs has the same lines |
| Lst.ForeignLine | services/core/playlists.py:71-80 | A line without a number is a path, with or without a tab; a negative length is unknown and does not spoil the path |
| Lst.AudioExactly | services/core/playlists.py:81-82 | A path counts if and only if what follows the last dot of its file name, in any case of letters, is a known extension, and that dot does not begin the name |
| Lst.SlashesTurned | services/core/playlists.py:225 | Paths are printed with backslashes and otherwise as they were |
| Lst.HeaderCounts | services/core/playlists.py:226-227 | The first line says how many tracks there are |
| Lst.DecimalValue | services/core/playlists.py:225 | A printed number is all digits and reads back as itself |
| Updater.Install.InstallTree | services/updater.py:446-454 | Files outside the managed set never change; it goes through if and only if no copy fails, and then the managed tree equals the source's if and only if no removal of a stale file fails; stopped half-way, exactly the files listed before the failed copy have arrived |
| Updater.Install.CopySet | services/updater.py:414-418 | Files are copied in listed order up to the first that fails, and nothing else changes |
| Updater.Install.Apply | services/updater.py:638-740 | Not begun, nothing changed; done if and only if every copy and the health check went well, the tree then being the release if and only if no removal of a stale file failed; otherwise put back if and only if every copy of the backup went well, the tree then being the tree before, byte for byte, if and only if no removal of a newly arrived file failed, and on a major update the database too; nothing outside the managed set ever changes |
| Updater.StaleFileStays | services/updater.py:449-453 | One stale file and one failed removal: the update is done and the tree is not the release |
| MpvIpc.MpvClient.ReadStream | services/engine/mpv_ipc.py:270-303 | However the bytes are cut into chunks, the lines dispatched are the newline-split of the whole stream, in order |
| MpvIpc.MpvClient.ReadChunk | services/engine/mpv_ipc.py:277-287 | Each chunk dispatches the lines it completes and keeps the rest |
| MpvIpc.LinesResume | services/engine/mpv_ipc.py:283-287 | Reading on from the remainder gives what reading at once would have given |
| MpvIpc.LinesRebuild | services/engine/mpv_ipc.py:285-287 | The lines and the remainder make up the stream again, no byte lost |
| MpvIpc.LinesHoldNoNewline | services/engine/mpv_ipc.py:285-287 | No line dispatched and no remainder holds a newline |
| MpvIpc.OwnReplyOnce | services/engine/mpv_ipc.py:188-225 | Over any interleaving of callers, replies, timeouts and a lost connection, a caller gets only the reply with its own id, and its waiter leaves the pending table exactly once |
| MpvIpc.OutcomeIsFinal | services/engine/mpv_ipc.py:305-332 | Once answered or given up, no late reply changes a caller's outcome |
| MpvIpc.ReplyDelivered | services/engine/mpv_ipc.py:305-316 | A reply that arrives while its waiter is pending is what the waiter holds from then on, whatever comes after |
| MpvIpc.IssuedWaits | services/engine/mpv_ipc.py:194-204 | A command has an id nobody had and a waiter of its own |
| MpvIpc.ClosedWakes | services/engine/mpv_ipc.py:327-332 | When the connection is lost every caller still waiting is woken empty-handed, for good |
| MpvIpc.GivenUp | services/engine/mpv_ipc.py:209-218 | A caller that gives up leaves alone and is never woken |
| MpvIpc.MpvClient.IssueRequest | services/engine/mpv_ipc.py:194-204 | A fresh id and its waiter |
| MpvIpc.MpvClient.DispatchLine | services/engine/mpv_ipc.py:305-321 | A reply wakes the waiter with its id and no other |
| MpvIpc.MpvClient.Forget | services/engine/mpv_ipc.py:323-325 | A caller that gives up leaves the table, at most once |
| MpvIpc.MpvClient.FailAllPending | services/engine/mpv_ipc.py:327-332 | Every waiter still pending is woken empty-handed, the others untouched |

## Left out

Engine:

- Player commands that fail half-way through an owner action, the preload that is given up on such a failure (services/engine/supervisor.py:575-579) and the failover after an exception (services/engine/supervisor.py:363-376): a player dies between actions here.
- A crash in the middle of an owner action, but for the one inside the emergency button.
- The fade curve, the playing position, the level meter and the mark that a crossfade was asked for: a crossfade report may arrive at any time, and the mixer may set any volume while a deck fades.
- The watchdog's timing, the restart backoff and the heartbeat: a dead or frozen player may be reported at any time.
- The status dictionary and entry titles.
- PlayoutRuns.NoSongLost: needs a play-head within the queue; `PlayoutRuns.AppendedIsLost` shows that it fails for every other state file.
- Entries without an id, and two pending entries alike in every field yet separate objects: the bridge mints an id for each.
- The state file's JSON and its quarantine: a state file here is a queue that passed the validation.

Feeder and calendar:

- The feeder's one retry after a version conflict, and a batch refused twice, whose entries leave the feed while the cursors stay where they are; the version protocol itself is proved for any clients.
- An engine too old to list its pending ids.
- Which file a folder item resolves to, and the cursor kept for a folder: any answer is allowed.
- Edits to a show while it is on air, and the rotation's rebuild after an edit.
- That spots wait while nothing airs or an emergency is on: a tick that fires nothing.
- Feeding.Feeder.CacheLookahead: folder items are only estimated, as in the source, so for them what is kept is not tied to what is fed.
- Feeding.Feeder.LookaheadThenTicks: assumes unchanged files for the prefix, as any feed with a changing disk may differ from what was looked ahead to; the show's order needs no such assumption.
- Time zones, daylight saving, malformed dates, and labels.
- SQL: tables are sequences of rows in table order, transactions are single steps.

Index, journal and the rest:

- Errors on single entries, a pass stopped half-way, tag reading, names that differ only in case, and the alphabetical order of the walk.
- Errors of the operating system while writing or reading the journal, and the reader of one whole file (services/engine/journal.py:106-117).
- Journal.IngestedExactlyOnce: says that everything is stored only where each rotation is noticed by the ingest after it; for one ingest that misses a rotation `Journal.UnnoticedCosts` says exactly when it still is.
- The bytes of a `.lst` file (UTF-8, its mark, cp1252), digits other than 0 to 9, numbers too long to convert, lengths as fractions of a second, folder items expanded on export, lengths looked up in the index, and writing the file.
- The updater's lock, download, verification, state file and pruning of backups: each succeeds or fails.
- Pipe calls, the timing of waits (a reply may land in the instant a caller gives up, which then raises a timeout all the same), and the ids spent on property subscriptions.
- HTTP routes, users, pages, devices, streaming and reports.
