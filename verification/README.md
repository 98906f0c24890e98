# SentinelSSH verification model

A Dafny model of the SSH honeypot's capture, ingest and reporting path, with proofs.

- **Ingest and correlation** (`Intel`, `Behavior`, `Risk`, `Mitre`, `Store`, `Incidents`, `Ingest`): one
  capture is one transaction over the attack and incident tables. History is counted, behaviour tags and a
  risk score are derived, a live incident is found or created and folded, and the transaction commits or rolls
  back. `Process` takes the point at which an exception is raised, if any, as a parameter. Regular expressions,
  letter case, GeoIP readers and threat-feed membership are the functions of a `World`; a `Pipeline` is a
  configuration together with a world, and every step of a run may use a different one.
- **Runs** (`History`, `Lifecycle`, `Isolation`, `Monotone`, `Provenance`): events are committed captures,
  aborted captures (which may use up keys) and analyst status changes, with closed terminal. `Core` is the
  invariant of every reachable database. `Isolation` gives a second, keyless machine that sees one IP only and
  looks only at the last incident, and shows that the tables refine one such machine for each IP.
- **Meaning of stored rows** (`Verdict`): each stored row, explanation, snapshot and incident, said in the
  fields of the captures behind it.
- **Emulated shell** (`Shell`, `ShellEditing`, `ShellScreen`): the chunked character machine, read against a
  right-to-left scan of the keystrokes and against a line terminal.
- **Capture file** (`CaptureLog`): any number of threads, in steps of one character, over one locked file
  that may already have content; and the fan-out over sinks.
- **Read side and seeding** (`Stats`, `Paging`, `Alerts`, `Seeder`): hourly buckets, risk histogram, pages,
  alert selection, and the demo seeder as a second builder of the same aggregates.

`Lists` holds the shared list algebra, `Dedup` above all.

Five promises do not hold of the code without a condition; each is proved together with its exact condition.

- `lastSeen` is set to the capture's start time, not to a maximum, so a long session that ends after a shorter,
  later one moves it backwards (`WindowCanInvert`). Joining keeps the window truthful exactly when the capture
  does not start before `lastSeen` (`JoinKeepsTruthfulIff`).
- `seed_if_empty(force=True)` opens a second live incident for an IP that already has one
  (`ReseedingOpensSecond`); it keeps the one-live rule exactly when no drawn IP has a live incident
  (`ForcedSeedIff`).
- The shell erases on DEL only; a raw BS is echoed and stored like a letter, and is the one key among BS, the
  printable and the editing keys that makes screen and buffer disagree (`KeyAgreesIff`); a whole session agrees
  throughout exactly when none is pressed before exit (`AgreesThroughoutIff`).
- The hourly chart reads the clock twice; it is exact for every table if and only if the second reading is not
  past the end of the hour of the first (`ChartIsExactIff`).
- The capture file is opened for appending. It reads back as its old lines and whole new records if and only if
  the old content ends with a line end and no exception strikes a thread while part of its record is in the file
  (`WholeLinesIff`). One such exception tears it (`TearingIsReachable`). Without exceptions the new records are
  whole, except that an open last line, which a killed process can leave behind, is glued to the first of them
  (`FaultFreeIsWhole`, `AppendedIff`, `OpenLineBreaks`).

Verify with `dafny verify dfyconfig.toml`.

## Model

| member | source | states |
|---|---|---|
| Lists.DedupElements | core/intel/mitre.py:47-58 | first-occurrence deduplication keeps exactly the elements, none twice |
| Lists.DedupKeepsFirstOrder | core/intel/incidents.py:68-75 | deduplicated elements stay in the order of their first occurrence |
| Lists.DedupLeft | core/intel/incidents.py:73 | merging new techniques into an already deduplicated list equals deduplicating the whole concatenation |
| Lists.DedupFlatten | core/intel/behavior.py:56-90 | deduplicating each part before concatenating equals deduplicating the concatenation |
| Behavior.BehaviorResult.Add | core/intel/behavior.py:33-38 | a tag and its techniques are appended in order unless already present |
| Behavior.Detect | core/intel/behavior.py:73-97 | the two result lists are the deduplicated tags and techniques of all rules a session raises, in order |
| Behavior.ClassifyCommand | core/intel/behavior.py:56-64 | one command's techniques are the deduplicated techniques of the matching rules |
| Behavior.ClassifiedMeans | core/intel/behavior.py:56-64 | a technique is classified for a command if and only if a command tag that publishes it has its pattern there |
| Behavior.DetectionFactors | core/intel/behavior.py:56-97 | detection is authentication techniques, then each command classified on its own, then T1021.004, deduplicated |
| Behavior.TagPresentIff | core/intel/behavior.py:73-97 | a tag is reported if and only if the session warrants it; no tag or technique is repeated |
| Behavior.TechniquePresentIff | core/intel/behavior.py:42-53 | a technique is reported if and only if some reported tag publishes it |
| Behavior.TagsInTurn | core/intel/behavior.py:73-97 | tags are listed in the order in which they are first raised: credential signals, then command by command in pattern order, then activity after login |
| Behavior.CoverageByTags | core/intel/behavior.py:33-38 | the technique list is the listed tags' techniques one tag after the other, each once |
| Risk.Score | core/intel/risk.py:40-75 | the score is the clamped sum of the explanation, the level that of the score |
| Verdict.ExplanationCause | core/intel/risk.py:51-75 | a reason is listed with its points if and only if the capture's own fields charge it and the points are not zero; reasons come in the engine's order, none twice |
| Verdict.TagCause | core/pipeline.py:84-93 | a tag is stored if and only if the capture's own commands, username, attempts, history or address give cause for it |
| Risk.ScoreFromTags | core/intel/risk.py:52-75 | given the same session, the score is a clamped weighted sum over the tag set and the foreign flag alone, in 0..100 |
| Mitre.Resolve | core/intel/mitre.py:47-58 | the loop with its `seen` set yields the catalogue entries of the deduplicated known identifiers |
| Mitre.ResolvedMembers | core/intel/mitre.py:47-58 | an entry is listed if and only if its identifier was given and is in the catalogue |
| Mitre.ResolvedInOrder | core/intel/mitre.py:47-58 | the entries are the catalogue's for the known identifiers in order of first occurrence |
| Store.PriorAttemptsCounts | core/pipeline.py:163-171 | the history count is the number of the IP's rows strictly before the capture and inside the window |
| Store.LiveIndexFinds | core/intel/incidents.py:36-42 | the find query returns a row if and only if the IP has an incident whose status is not closed, and one with the latest last_seen |
| Incidents.Correlate | core/intel/incidents.py:25-66 | find or create the live incident and update its fields in place to the folded row |
| Incidents.FoldKeepsView | core/intel/incidents.py:57-65 | one incremental update keeps attempt sum, risk maximum, technique deduplication, first non-empty country and title equal to a recomputation |
| Incidents.TopRiskIsGreatest | core/intel/incidents.py:59 | the running maximum is attained and bounds every linked score |
| Verdict.ReachableIncident | core/intel/incidents.py:44-80 | every reachable incident sums up exactly its linked attacks: attempts of at least one each, attained maximum, techniques in order, first non-empty country, first and last ingested instants, title in words and digits |
| Ingest.Process | core/pipeline.py:72-161 | the whole effect of a capture or, when anything raises, no change to any row |
| Ingest.WithSession | core/pipeline.py:81-161 | inside the session the rows become those of the committed capture and the snapshot reports the stored row |
| Verdict.SnapshotSays | core/pipeline.py:173-196 | the snapshot of a committed capture shows the row stored under the next key, an entry for each technique, the number of commands and exactly the charged reasons |
| Verdict.ReachableRow | core/pipeline.py:72-137 | row i of a reachable database copies capture i of the run, and its tags, techniques, score and level are judged by that capture's fields and the count of earlier rows in the window |
| Ingest.Session.Commit | core/db.py:89-100 | the session's rows become the database's rows |
| History.Serve | core/db.py:89-100 | a call is one step of a run, the committed capture if it returns and an abort that changes no row if it raises, so it keeps the invariant |
| Ingest.BuildAttack | core/pipeline.py:108-137 | the attack row, its commands appended one by one in order |
| History.StepKeepsCore | core/pipeline.py:139-153 | every step keeps keys, links, the one-live rule, exact views and the score range |
| History.ReachableIsExact | core/intel/incidents.py:44-66 | every run from the empty database ends with exact incident views, links within the IP and at most one live incident for each IP |
| Lifecycle.ClosedIsFinal | README.md:228-229 | whatever follows, a closed incident keeps its row and its attacks, and stored attacks are never altered |
| Lifecycle.CaptureOpensFresh | core/intel/incidents.py:44-55 | with every incident of the IP closed, a capture opens exactly one incident holding that attack alone |
| Lifecycle.CaptureJoinsLive | core/intel/incidents.py:36-57 | with an open or triaged incident, a capture joins it and touches no other row |
| Lifecycle.StatusByKey | README.md:228-229 | moving an open or triaged incident to another status by its key is the same step as by its IP |
| Lifecycle.StatusOfClosed | README.md:228-229 | with every incident of the IP closed, an analyst's step changes nothing |
| Lifecycle.JoinKeepsTruthfulIff | core/intel/incidents.py:57 | joining keeps first and last seen truthful if and only if the capture does not start before last_seen |
| Lifecycle.ReachableTruthfulIff | core/intel/incidents.py:44-57 | a reachable window is truthful if and only if the first attack is the earliest and the last ingested one the latest |
| Lifecycle.WindowCanInvert | core/intel/incidents.py:57 | two captures of one IP out of order give last_seen before first_seen |
| Isolation.StepRefines | core/pipeline.py:163-171 | a step of the IP is the single-IP machine's step, a step of another IP changes nothing in its dossier |
| Isolation.RunRefines | core/pipeline.py:72-161 | over whole runs the tables read for one IP are what the single-IP machine computes from that IP's events |
| Isolation.OtherIpsAreInvisible | core/pipeline.py:163-171 | deleting every event of other IPs leaves this IP's attacks and incidents the same up to keys |
| Isolation.DossierShows | core/pipeline.py:72-161 | a dossier holds all of the IP's incidents and attacks in order, equal up to keys, each attack pointing to the incident it is linked to |
| Isolation.LiveIsLastCard | core/intel/incidents.py:36-42 | under the invariant the query by latest last_seen finds exactly the IP's most recent incident |
| Monotone.InsertedHistory | core/pipeline.py:163-171 | attacks inserted anywhere raise the history count by exactly their own in-window number |
| Monotone.DetectionGrows | core/intel/behavior.py:73-97 | more commands, attempts, history or a malicious flag never remove a tag or technique |
| Monotone.RunCounts | core/pipeline.py:163-171 | over any run an IP's history grows by exactly its committed captures in the window |
| Monotone.VerdictGrows | core/pipeline.py:81-106 | with non-negative weights, inserting events anywhere into the run, rows into its start, commands, attempts or a malicious flag never removes a tag or technique from the next attack nor lowers its score or level |
| Provenance.AllWritten | core/pipeline.py:90-153 | the attacks of a reachable database are exactly the run's committed captures in order, each assessed on the history of the rows stored before it |
| Provenance.StoredVerdict | core/intel/risk.py:40-75 | stored score and level follow from the stored tags and the origin, and the explanation sums up to the score |
| Provenance.ReachableIsTagged | core/intel/behavior.py:42-97 | every stored attack's techniques are exactly those its tags publish, without repetition and all in the catalogue |
| Provenance.ReachableDistribution | backend/app/services/stats_service.py:41-56 | on every reachable database histogram and levels count each attack once, and agree under the default bands |
| Shell.FakeShell | honeypot/session_handler.py:123-168 | recorded commands and output are those of the keystroke machine on the received chunks |
| Shell.PressKey | honeypot/session_handler.py:142-168 | one character: line end, backspace, Ctrl-C or echo |
| Shell.SessionIsTyping | honeypot/session_handler.py:130-142 | unless the cap stops it, a session equals typing all received text at once |
| Shell.ChunkingIsInvisible | honeypot/session_handler.py:130-168 | two splittings of the same keystrokes give the same commands, buffer and output |
| Shell.SessionIsPrefixTyping | honeypot/session_handler.py:132-142 | capped or not, a session is the typing of a whole number of chunks |
| ShellEditing.BufferIsScan | honeypot/session_handler.py:159-168 | the buffer equals the right-to-left scan with pending deletes back to the latest CR, LF or Ctrl-C |
| ShellEditing.CommandsAreScans | honeypot/session_handler.py:143-158 | the recorded commands are the stripped scans at each line end, and the session ends exactly with an exit word |
| ShellEditing.SessionRecords | honeypot/session_handler.py:130-168 | the same for a whole chunked session, capped or not |
| ShellEditing.StripPads | honeypot/session_handler.py:145 | stripping removes white space at both ends, all of it and nothing else |
| ShellEditing.LineEndRecords | honeypot/session_handler.py:143-158 | a line end records the scanned line without the white space around it unless it is all white space, ends the session on exit, logout or quit only, and otherwise answers and prompts |
| ShellEditing.OtherKeyEchoes | honeypot/session_handler.py:159-168 | any other key records nothing and ends nothing, and is answered by the erase sequence, a new prompt or its echo |
| ShellEditing.RecordedAreWellFormed | honeypot/session_handler.py:145-156 | each recorded command is non-empty, a fixed point of strip and free of editing keys; an exit word can only be the last |
| ShellEditing.ChunkAddsAtMost | honeypot/session_handler.py:142-153 | n characters add at most (n + 1) / 2 commands |
| ShellEditing.BoundIsAttained | honeypot/session_handler.py:142-153 | that bound is reached by chunks of every odd length |
| ShellEditing.CapOvershoot | honeypot/session_handler.py:132-136 | the cap, checked between chunks, is exceeded by less than half a chunk |
| ShellEditing.ShellCommandBound | honeypot/session_handler.py:132-136 | with 1024-character reads at most max_commands + 511 commands |
| ShellEditing.OvershootIsReached | honeypot/session_handler.py:132-136 | for every cap and every read size some session within that size ends with exactly max_commands - 1 + (size + 1) / 2 commands: max_commands + 511 for 1024 |
| ShellScreen.ScreenAgrees | honeypot/session_handler.py:126-168 | after printable or editing keys the terminal line reads prompt and buffer, and the prompt is never erased |
| ShellScreen.KeyAgreesIff | honeypot/session_handler.py:159-168 | among printable keys, editing keys and raw BS, exactly BS breaks the agreement |
| ShellScreen.AgreesThroughoutIff | honeypot/session_handler.py:126-168 | over those keys, screen and buffer agree after every keystroke until exit if and only if no raw BS is pressed before exit |
| CaptureLog.WholeLinesIff | honeypot/capture.py:81-85 | whatever the file held and under any interleaving, it reads as the old lines, the finished records in order and the holder's part, if and only if the old content ends with a line end and no step of the schedule is an exception part-way through a record |
| CaptureLog.AppendedIff | honeypot/capture.py:84-85 | an old open line costs the first new record only: what is due is joined to the old text, its first line glued to the open one, if and only if no exception strikes part-way through a record |
| CaptureLog.FaultFreeIsWhole | honeypot/capture.py:81-85 | without exceptions every interleaving appends whole records and at most the holder's part, behind the old lines if and only if the old content ends with a line end |
| CaptureLog.TearingIsReachable | honeypot/capture.py:83-85 | an exception after one of two characters tears the file |
| CaptureLog.OpenLineIsGlued | honeypot/capture.py:84 | a fault-free write into a file with an open last line gives one line made of both |
| CaptureLog.OpenLineBreaks | honeypot/capture.py:84 | a file holding an open x, then the record a, reads as the one line xa |
| CaptureLog.KilledLeavesClosed | honeypot/server.py:99-101 | a process killed at any point leaves the file ending with a line end if and only if no record is part-way written |
| CaptureLog.OrderIsKept | honeypot/capture.py:81-85 | with exceptions too, the lines a thread has dealt with, in order, and those it still has to write make up its program |
| CaptureLog.FileOrder | honeypot/capture.py:81-85 | without exceptions the new lines of the file are the attempts' lines in order, those of each thread a prefix of its program and all of it at the end |
| CaptureLog.CanFinish | honeypot/capture.py:83 | from every reachable state, exceptions before it or not, all remaining lines can be written and the lock left free |
| CaptureLog.MutualExclusion | honeypot/capture.py:83 | a thread inside the critical section holds the lock |
| CaptureLog.SoloWrite | honeypot/capture.py:81-85 | with the lock free a write runs to its end, appends its record and frees the lock |
| CaptureLog.JsonlSink.Write | honeypot/capture.py:81-85 | the lock is free afterwards and the file has grown by the record, or by a prefix when writing raised |
| CaptureLog.MultiSink.Write | honeypot/capture.py:94-99 | whichever sinks raise, the sinks are called in list order, each once for each listing, and keep what succeeded |
| CaptureLog.StoredIff | honeypot/capture.py:94-99 | a sink holds a record if and only if one of its writes of it did not raise |
| Stats.AttacksPerHour | backend/app/services/stats_service.py:58-78 | the buckets are consecutive hours ending now, each counting the pre-filtered timestamps of its hour |
| Stats.WindowMeans | backend/app/services/stats_service.py:60 | between 1 and 168 slots, as many as asked for within these bounds |
| Stats.SlotsMean | backend/app/services/stats_service.py:61-68 | the slots are consecutive whole hours and the last one contains the current instant |
| Stats.HourlyIsPlainCount | backend/app/repositories/attack_repo.py:136-140 | the pre-filter drops nothing that is shown: a bucket counts all stored attacks of its hour |
| Stats.ChartIsExactIff | backend/app/services/stats_service.py:61-74 | the chart is right for every table if and only if the second clock reading is not past the end of the hour of the first |
| Stats.HourlyTotals | backend/app/services/stats_service.py:64-78 | the buckets sum to the attacks of the displayed window |
| Stats.RiskDistribution | backend/app/services/stats_service.py:41-56 | the counts of each level and of each score bucket |
| Stats.DistributionConserves | backend/app/services/stats_service.py:16-17 | buckets and levels each count every attack once |
| Stats.LevelsAreBuckets | core/intel/config.py:74-79 | under the default bands low, medium and high are buckets 0-30, 31-70 and 71-100 |
| Paging.FiltersMatch | backend/app/repositories/attack_repo.py:36-57 | the chain of optional where clauses selects exactly the rows matching every given filter, in table order |
| Paging.ListingIsSelection | backend/app/repositories/attack_repo.py:63-70 | the listing has each matching row as often as the table and no other, with ranks that never fall when ascending and never rise when not; its length is the counted total |
| Paging.PageIsSlice | backend/app/repositories/attack_repo.py:59-71 | a page holds the next per_page rows of the listing after (page - 1) * per_page, or what is left |
| Paging.MetaMeans | backend/app/utils/responses.py:35-43 | pages is the least number of pages that hold all rows, has_prev holds if and only if the page's offset is not zero |
| Paging.NextPageIff | backend/app/utils/responses.py:35-43 | has_next holds if and only if rows remain beyond the page |
| Paging.WalkCoversListing | backend/app/repositories/attack_repo.py:59-71 | following has_next from page 1 ends after max(1, pages) pages that concatenate to the listing, all but the last full |
| Alerts.ToAlert | backend/app/services/system_service.py:62-92 | the label is that of the highest-priority tag present, with the matching technique or the fallback |
| Alerts.CaptionByPriority | backend/app/services/system_service.py:19-28 | label and technique by tag, in the order of priority |
| Alerts.AlertMatchesAttack | backend/app/services/system_service.py:19-80 | for pipeline-written attacks the technique shown is the attack's own, its first one when the label names none, the fallback is never taken and resolving drops nothing |
| Alerts.ReachableAlertsMatch | backend/app/services/system_service.py:62-80 | all of that for every attack of every reachable database |
| Seeder.SeedIfEmpty | backend/app/demo_data.py:63-127 | a non-forced call on a non-empty table changes nothing; otherwise the tables become the seeded ones |
| Seeder.SeedStores | backend/app/demo_data.py:103-124 | the seeded rows are the drawn attacks in order, behind the old ones and under the next keys |
| Seeder.DrawnAttack | backend/app/demo_data.py:80-120 | a drawn attack lies in the past day, has its profile's tags, techniques and commands, a score within four of the profile's and the level of the default bands |
| Seeder.SeedingEstablishesCore | backend/app/demo_data.py:74-124 | seeding an empty database gives one open, exact, truthful incident for each IP, and the pipeline keeps the invariant from there |
| Seeder.SeedTwice | backend/app/demo_data.py:69-70 | after a call with at least one round, a second non-forced call returns 0 and changes nothing |
| Seeder.ForcedSeedIff | backend/app/demo_data.py:69-94 | forced seeding leaves at most one live incident for each IP if and only if no drawn IP had a live incident |
| Seeder.ReseedingOpensSecond | backend/app/demo_data.py:69-94 | two forced seedings with the same draws end with two live incidents of one IP |
| Seeder.DrawnArePlausible | backend/app/demo_data.py:22-52 | draws within their ranges give scores in 0..100, at least one attempt and one country for each IP |

## Left out

- Overlapping `process` calls: the code has no lock or unique constraint, so steps are serialised here.
- Timestamp parsing and its fallback to the current time: captures carry instants.
- UTF-8 decoding across chunk boundaries: chunks are already decoded text.
- Paramiko transport, sockets, exec requests and the wall-clock deadline: the shell reads a list of receives, and the list running out stands for the deadline.
- The texts of canned shell answers, technique names and technique URLs: parameters or omitted, nothing depends on them.
- Regular expressions, address parsing, GeoIP and feed lookup, JSON encoding: functions of the world or plain lists; stored lists are always well-formed.
- Command timestamps inside the shell record and log messages: clock readings and output only.
- Text collation and column types of the database: a ranking function orders rows, and ties stay in table order on every page.
- The seeder's random generator: the drawn values are an input; exceptions during seeding are not modelled.
- `scripts/seed_demo_large.py`, Flask routes, authentication, SocketIO, reports and the frontend: plumbing.
- ShellScreen.ScreenAgrees: covers printable ASCII and the editing keys; other control characters are echoed raw, and only BS among them is interpreted (KeyAgreesIff).
- Ingest.Process: exceptions are raised between the listed stages, not inside the computation of one.
