# Remote Host MCP: a Dafny model of its stateful protocols

This project models the parts of Remote Host MCP whose guarantees span many steps: the
rotating audit log with its tail reader and batching reporter, the guarded file write, the
terminal stream, durable jobs, resumable uploads, snapshots, line patches, leases, the
bounded text reader and UTF-8 truncation. `dafny verify dfyconfig.toml` checks all of it.

| file | what it models |
|---|---|
| `octets.dfy` | bytes, options, results, concatenation |
| `log_lines.dfy` | the audit log as bytes: lines, records, the events they decode to |
| `audit_log.dfy` | `AuditWriter`: append and rotate |
| `tail_plan.dfy`, `audit_tail.dfy` | `AuditTail`: cursor, catch-up plan, bounded and abandonable reads |
| `line_reads.dfy` | what a read makes of one line, told by its bytes |
| `log_delivery.dfy` | writer and reader together, over whole runs |
| `log_tracking.dfy` | the same step by step: writes, single reads, acknowledgements and restarts in any order |
| `tail_losses.dfy` | runs of writer and reader in which a restart loses a record |
| `report_agent.dfy` | `ReportAgent`: queue, batches, retries, restarts on one file |
| `folder.dfy`, `guarded_write.dfy` | a directory shared with other processes, and `write_text_file` in it |
| `osc_markers.dfy`, `terminal.dfy` | marker stripping across reads; the ring buffer and its cursors |
| `job_world.dfy`, `durable_jobs.dfy` | job directories, processes and workers; the server's operations with crash points |
| `job_reports.dfy` | what clients of the server are told, and what a job goes through |
| `upload.dfy`, `upload_runs.dfy` | one upload transaction; its answers, and a whole upload |
| `snapshot.dfy` | bounded tree capture and restore |
| `line_patch.dfy` | line splitting, edit order and reverse splicing |
| `leases.dfy` | the lease registry |
| `text_reader.dfy` | `read_text_file` |
| `utf8.dfy` | `truncate_utf8` |

Objects whose methods update fields are classes here; every such method is tied to a
function of the old state or to a relation between old and new state. For jobs, uploads,
leases and the reporter, `Run` shows that a run of the methods is a trace of those steps, one
reply for every operation, and the claims are lemmas about every trace. `LogTracking.Run` does the same
for the log with its reader. For the log over polls, the terminal cursor and snapshots (`LogDelivery.Run`, `AuditLog.RecordAll`, `Terminal.Follow`,
`Snapshots.RoundTrip`) the result of a whole run is given outright.

## How the outside world is modelled

- **Files** are byte sequences; rename, exchange and no-replace rename are atomic steps.
- **Object identity** (inode numbers, process id with start time, random tokens and ids) is a
  counter that never repeats. A usable file identity is positive; 0 is a file system without one.
- **SHA-256**, JSON parsing, hexadecimal integer parsing, UTF-8 lengths, white-space
  stripping, directory listing order and fresh temporary names are function parameters.
  Nothing assumes a hash to be injective.
- **Other processes** are lists of steps that run at each point where the source can be
  interleaved; they do not know the random temporary name of a guarded write, and every write
  of theirs changes the modification time.
- **Crashes** are parameters naming the persisted step after which the process dies.
- **Time** is a parameter of each operation.

## What the code does not guarantee

Each of these is a proved statement about the model, next to the condition under which the
guarantee does hold.

- The comments in `report_agent.py` say that a rotation never costs a record. Without file
  identities the single replay they promise repeats at every poll
  (`TailPlan.UnusableIdentityReplays`), and a restart loses records in two ways:
  - during an unfinished catch-up exactly what the plan had left (`TailPlan.RestartInCatchUp`;
    `TailLosses.RestartLosesRecord` is a run that gets there);
  - after a checkpoint of the old file was stored behind the noticing of a rotation, unless
    the offset skips nothing of the new file, which is spelled out, or lies behind its end,
    where everything is replayed (`TailPlan.StaleCommit`; `TailLosses.StaleCommitLosesRecord`
    is a run in which a record is never delivered).

  The end-to-end results therefore have usable identities. `LogDelivery.Run` has restarts
  between polls only and nothing left unacknowledged at the end of a poll; `LogTracking.Run`
  has every single step in any order and names what each step needs (`LogTracking.Allowed`):
  a rotation finds nothing queued and no catch-up under way, and a restart with the cursor of a
  catch-up stored comes only once the older files are acknowledged (`LogTracking.RestartIff`).
- A log line longer than one read is never passed by the reader, in the main file or in a
  rotated one; behind it nothing is delivered any more, of newer generations neither.
  `AuditTailing.AuditTail.ReadNew` says when a read moves, and `LogDelivery.Run` that the
  events delivered are those in front of the first such record. While a catch-up is held up
  by one, a restart loses and a rotation repeats records (`TailPlan.RestartInCatchUp`,
  `TailPlan.RotationInCatchUp`), so the run has neither from there on.
- Markers of up to 257 bytes are read-size independent, one more than the tail limit; every
  longer one leaks (`OscMarkers.MarkerLimitIsExact`).
- A guarded write compares and swaps, except that in-place writes during both hashings of
  one object go unnoticed (`GuardedWrite.BothWritesSlip`), and a roll-back unlinks a foreign
  object exactly when the destination changes hands between its ownership check and the
  exchange back (`GuardedWrite.OnlyOursIsRemoved`).
- A terminal job status lasts if and only if no worker runs under the job any more
  (`JobWorld.TerminalLastsIff`). A job whose server died between launching the worker and
  recording it reads as interrupted and later as something else
  (`JobWorld.InterruptedIsNotFinal`; `DurableJobs.InterruptedCompletes` is such a run).
- The offset told of an open upload falls if and only if the server died with the staging file
  gone and the metadata not written, in an abort, a finish or an expiry
  (`Uploads.OffsetFallsIff`, `Uploads.EveryDeathShows`); then it is 0 for good. In an expiry
  this shows only under a clock that goes back, since the next request expires it. After such a
  finish a later abort is accepted although the target was replaced
  (`Uploads.AbortAfterLostFinish`).
- A restore of a snapshot stops at the first entry whose directory is neither there nor comes
  back with an earlier entry (`Snapshots.RestorableIff`); the entries before it stay restored.
- `truncate_utf8` with a negative limit cuts from the end (`Utf8.TruncatesToLongest`).
- `read_text_file` may cut the last permitted line at a read boundary; `TextReader.Budgeted`
  says exactly where.

## Model

| member | source | states |
|---|---|---|
| LogDelivery.Run | src/remote_host_mcp/report_agent.py:264-444 | over any run of writes with rotations, polls in which reads are abandoned and events acknowledged anywhere as long as all is acknowledged at the end, and restarts between polls, with at most min(keep, 64) rotations between polls: the events delivered are exactly those of the records written before the last poll and in front of the first one longer than a read, each once, in write order, for every read size |
| LogDelivery.Poll | src/remote_host_mcp/report_agent.py:414-541 | whatever the consumer reads and acknowledges in whatever order, what lay ahead is what was delivered followed by what is ahead now; it ends at the end of the main file or in front of an overlong line, with the cursor up to date |
| LogTracking.Run | src/remote_host_mcp/report_agent.py:264-541 | any writes, single reads, acknowledgements of any number of queued events and restarts, in any order, by the writer and the reader themselves, end as some trace does; if every step of it was allowed, what was acknowledged and what is queued are the first of the records written, each once, in write order |
| LogTracking.RunDeliversOnce | src/remote_host_mcp/report_agent.py:264-541 | at every point of every allowed trace, what was acknowledged, then what is queued, then what the reader is still going to deliver, are the events of all records written so far, each once and in order |
| LogTracking.StepKeeps | src/remote_host_mcp/report_agent.py:264-541 | every allowed step keeps the invariant: queued offsets and the stored cursor stand behind exactly the records they acknowledge, across growth and rotation of the log between reads |
| LogTracking.ReadMoves | src/remote_host_mcp/report_agent.py:414-444 | wherever such a trace has got to, a read delivers something if and only if a record is left and the next one fits one read; once a read comes back empty and no record is overlong, everything written was delivered |
| LogTracking.AckKeeps | src/remote_host_mcp/report_agent.py:538-541 | acknowledging any number of queued events stores a cursor from which a restart finds exactly the records not acknowledged, unless it is that of a catch-up |
| LogTracking.RestartKeeps | src/remote_host_mcp/report_agent.py:195-221 | a restart with events queued delivers those again and everything behind them, and nothing acknowledged |
| LogTracking.RestartIff | src/remote_host_mcp/report_agent.py:195-229 | wherever such a trace has got to, a restart delivers exactly the records not acknowledged if and only if the stored cursor is not that of a catch-up or everything older than the main file was acknowledged; otherwise it delivers the main file alone |
| LogTracking.RotationKeeps | src/remote_host_mcp/report_agent.py:236-317 | rotated away with nothing queued, the file acknowledged last is an older generation from whose checkpoint on everything is still to come |
| LogDelivery.SettledRemaining | src/remote_host_mcp/report_agent.py:236-317 | wherever a settled reader stands, in any retained generation or nowhere yet, what it is going to deliver is exactly the unread records |
| LogDelivery.WriteStep | src/remote_host_mcp/audit.py:231-290 | one more record, rotating or not, is one more unread record, and nothing unread is pruned while rotations stay within what is kept and scanned |
| LogDelivery.EntriesItems | src/remote_host_mcp/report_agent.py:286-297 | the plan entries of several generations deliver their records oldest first, the first from the checkpoint on |
| LogDelivery.PollRests | src/remote_host_mcp/report_agent.py:392-412 | a reader stopped by an overlong line behind another record of the main file stands in front of it with its position acknowledged, so that later rotations and restarts find it there |
| AuditTailing.AuditTail.constructor | src/remote_host_mcp/report_agent.py:195-221 | a restart knows only what the cursor file says; anything malformed in it means starting over |
| AuditTailing.AuditTail.Commit | src/remote_host_mcp/report_agent.py:223-229 | the stored cursor pairs the offset with the identity in use, and reading is not moved |
| AuditTailing.AuditTail.StartDrain | src/remote_host_mcp/report_agent.py:264-304 | the loop over generations builds exactly the plan that skips what was acknowledged, and measures from the new main file on |
| AuditTailing.AuditTail.DrainGeneration | src/remote_host_mcp/report_agent.py:353-386 | one bounded read of a generation finishes it or moves its position, with nothing lost or repeated, wherever the consumer stops; it moves if and only if it reaches a line feed or the end of the generation |
| AuditTailing.AuditTail.DrainStep | src/remote_host_mcp/report_agent.py:335-388 | what was ahead of the reader is what this step delivered followed by what is ahead now, also when the plan is rebuilt under way |
| AuditTailing.AuditTail.ReadMain | src/remote_host_mcp/report_agent.py:392-412 | only complete lines are passed, each with the offset behind it; the position moves if and only if a line feed lies within one read, and a read that is not cut short passes every line in it |
| AuditTailing.AuditTail.ReadNew | src/remote_host_mcp/report_agent.py:414-444 | conservation of what is ahead over a whole call, for any consumer that stops anywhere; in a catch-up and in the main file alike a call delivers something if and only if the next line ahead fits one read, and otherwise stands at the end or in front of an overlong line |
| LineReads.ReadLine | src/remote_host_mcp/report_agent.py:335-412 | a read in front of a complete line that fits it, that holds a byte other than ASCII white space and that the parser accepts, delivers that line's event first, with the offset behind it in the main file and 0 in a generation, whatever else the log holds |
| LineReads.LineDelivers | src/remote_host_mcp/report_agent.py:366-412 | what is delivered from a complete line on: its event, if it is not white space and the parser accepts it, otherwise nothing, and then what stands behind it |
| TailPlan.CurrentPlanYields | src/remote_host_mcp/report_agent.py:335-388 | while the directory matches the plan, the catch-up delivers the plan's generations and then what a settled reader would |
| TailPlan.StartedYields | src/remote_host_mcp/report_agent.py:264-304 | starting a catch-up neither adds nor drops anything that is ahead |
| TailPlan.RestartInCatchUp | src/remote_host_mcp/report_agent.py:303-304 | a restart after a commit in the catch-up loses exactly the rest of the plan, so it loses nothing if and only if that rest is empty |
| TailPlan.RotationInCatchUp | src/remote_host_mcp/report_agent.py:363-369 | a rotation during a catch-up, whatever of the plan is used up by then, puts everything retained ahead again |
| TailLosses.RestartLosesRecord | src/remote_host_mcp/report_agent.py:303-304 | a run of three records in three files, one read, its commit and a restart after which the second record is not ahead any more though never delivered |
| TailPlan.StaleCommit | src/remote_host_mcp/report_agent.py:538-541 | after an old offset was stored with the new identity a restart delivers what is ahead if and only if no event ends at or before the offset and the line it cuts, if any, decodes alike without its beginning; an offset behind the end of the file replays everything retained |
| TailPlan.SkippingIff | src/remote_host_mcp/report_agent.py:392-412 | reading a content from any byte delivers what reading it from the beginning does, exactly under that condition |
| TailLosses.StaleCommitLosesRecord | src/remote_host_mcp/report_agent.py:430-541 | a run of two records of one length, a rotation between them, a commit behind its noticing and a restart, after which nothing is ahead though the second record was never delivered |
| TailPlan.UnusableIdentityReplays | src/remote_host_mcp/report_agent.py:306-317 | without file identities any number of polls of an unchanged directory delivers every generation and the whole main file that many times |
| ReportAgents.Run | src/remote_host_mcp/report_agent.py:479-541 | any appends, polls, Hub outcomes, restarts and deaths before a commit on one growing file make a trace of the step relation, with the Hub's answers for every operation |
| ReportAgents.SettledExactly | src/remote_host_mcp/report_agent.py:479-541 | at every point of every such trace: the batches whose checkpoint was stored are exactly the reportable records up to it, once and in order; the queue holds the next ones with strictly increasing line-end offsets; the rest is still to be read |
| ReportAgents.PollSettles | src/remote_host_mcp/report_agent.py:635-647 | a poll that is ready and due, with a Hub that acknowledges, settles the whole queue and all it reads, and reads on if and only if a line ends within one read |
| ReportAgents.ReportAgent.ReadMore | src/remote_host_mcp/report_agent.py:479-502 | what is queued or dropped is exactly what the read position passed, which stops at the ceiling or when no further line ends within one read; the checkpoint stays |
| ReportAgents.ReportAgent.Flush | src/remote_host_mcp/report_agent.py:511-541 | an answered batch leaves the queue from the front, becomes settled and moves the stored checkpoint behind it; an unanswered one leaves everything as it was |
| ReportAgents.ReportAgent.Cycle | src/remote_host_mcp/report_agent.py:635-647 | one poll reads when ready and sends when the queue is long or old enough, batch after batch until one is not acknowledged; settled, queued and unread records stay a partition of the file |
| ReportAgents.BatchesAreFront | src/remote_host_mcp/report_agent.py:511-541 | whatever the Hub answers, what one poll settles is the front of the queue |
| ReportAgents.QueueSplit | src/remote_host_mcp/report_agent.py:538-541 | committing behind any queued record leaves exactly the later ones between the checkpoint and the read position |
| ReportAgents.QueuedCheckpoints | src/remote_host_mcp/report_agent.py:406-412 | queued offsets strictly increase and each is a line end |
| ReportAgents.PreparedCarried | src/remote_host_mcp/report_agent.py:151-171 | preparing keeps exactly the events with the three required fields, in order, each under its own offset and with the fields its level shows |
| ReportAgents.ShownAsRead | src/remote_host_mcp/report_agent.py:151-171 | at every point of every trace what was settled and what is queued are the reportable records read so far, each with the fields its level shows, field by field: at meta neither argsText nor outputBytes, outputPreview and outputRef, at tool none of the last three, everything else as read; the level is the one in force when the record was read |
| ReportAgents.SettledCount | src/remote_host_mcp/report_agent.py:511-541 | a poll settles as many batches as the Hub acknowledges in a row, and one more if it rejects that one, each of at most the configured number of records |
| ReportAgents.PollHolds | src/remote_host_mcp/report_agent.py:504-509 | nothing is sent while a retry waits, nor while the queue is shorter than a batch and the interval has not passed |
| AuditLog.RecordAll | src/remote_host_mcp/audit.py:220-290 | after any records the files, oldest first, are exactly the newest keep + 1 of the files into which the size rule cuts the records |
| AuditLog.CutIsSound | src/remote_host_mcp/audit.py:220-267 | the size rule cuts the records into whole files in order, each within the limit or a single record, and closes a file only when the next record would exceed the limit |
| AuditLog.NewestIsKept | src/remote_host_mcp/audit.py:250-267 | the newest record is always on disk, and what is pruned are the oldest files, whole |
| AuditLog.AuditWriter.Record | src/remote_host_mcp/audit.py:269-290 | one record extends the history by itself, whichever generations are renamed or pruned for it |
| AuditLog.AuditWriter.RotateFiles | src/remote_host_mcp/audit.py:250-267 | the renaming loop shifts every generation by one, drops the one over the limit and loses no other |
| AuditLog.RecordedHistory | src/remote_host_mcp/audit.py:220-267 | what is pruned followed by what remains is what was there followed by the new record |
| LogLines.LinesAndTail | src/remote_host_mcp/report_agent.py:402-406 | a content is its lines, each followed by a line feed, and its unterminated tail |
| LogLines.ScanFromLineEnd | src/remote_host_mcp/report_agent.py:406-412 | reading on from any yielded offset delivers exactly the later events |
| LogLines.ScanFromAnywhere | src/remote_host_mcp/report_agent.py:392-412 | what reading from an arbitrary byte leaves out, and what it makes of the line it cuts |
| LogLines.LinesOfRecords | src/remote_host_mcp/report_agent.py:402-412 | a file of whole records reads back as exactly those records |
| OscMarkers.MatchIsRender | src/remote_host_mcp/terminal.py:40-41 | the matcher finds a marker if and only if a well-formed marker is written there |
| OscMarkers.MarkerText | src/remote_host_mcp/terminal.py:40-41 | a marker character by character |
| OscMarkers.ValidMarkerIff | src/remote_host_mcp/terminal.py:41-41 | its fields: `C` or `D`, 24 lower-case hexadecimal digits, and decimal digits with or without a minus sign |
| OscMarkers.ChunkInvariance | src/remote_host_mcp/terminal.py:129-181 | for text and complete markers of at most 257 bytes, every way of cutting the stream into reads gives its text, its markers and an empty tail |
| OscMarkers.MarkerLimitIsExact | src/remote_host_mcp/terminal.py:155-180 | a marker is read-size independent if and only if it has at most 257 bytes |
| OscMarkers.ByteConservation | src/remote_host_mcp/terminal.py:129-229 | for arbitrary input, the output followed by the held tail is the input with nothing deleted but markers |
| Terminal.ReadSizesDoNotMatter | src/remote_host_mcp/terminal.py:129-229 | two ways of cutting one stream give the same output and the same exit code |
| Terminal.LastReportWins | src/remote_host_mcp/terminal.py:135-151 | the exit code is that of the last report for the pending command, and nothing else of the command changes |
| Terminal.ExitCodeIsTold | src/remote_host_mcp/terminal.py:129-153 | however a well-formed stream is cut into reads, if the last report of the pending command carries the decimal text of an integer, its exit code is that integer |
| Terminal.TellExitCode | src/remote_host_mcp/terminal.py:129-201 | the marker written out in characters, with any integer as exit code, gives the pending command that exit code and leaves no trace in the output |
| Terminal.CodeIsRead | src/remote_host_mcp/terminal.py:147-149 | the decimal text of every integer, with its sign, is a valid exit code and is read as that integer |
| Terminal.ReportsIff | src/remote_host_mcp/terminal.py:140-146 | which markers are reports of a command: `D` markers with an exit code and its name, while it is under way |
| Terminal.TerminalSession.StripOsc | src/remote_host_mcp/terminal.py:129-181 | the two searches for an incomplete marker release, hold back and consume what the chunk specification says |
| Terminal.TerminalSession.AppendOutput | src/remote_host_mcp/terminal.py:183-201 | the buffer stays the last max_buffer_bytes of everything emitted, and emitted grows by what was released |
| Terminal.TerminalSession.ReaderLoop | src/remote_host_mcp/terminal.py:203-229 | after the last read and the final flush everything held has been emitted and nothing is held |
| Terminal.TerminalSession.ReadSlice | src/remote_host_mcp/terminal.py:260-280 | a slice is the piece of the whole stream its cursors name, and truncation is reported exactly when bytes before it were dropped |
| Terminal.TerminalSession.OutputBetween | src/remote_host_mcp/terminal.py:282-293 | the piece of the stream between two cursors, clipped to what is retained |
| Terminal.Follow | src/remote_host_mcp/terminal.py:260-280 | under any interleaving with output a client that feeds cursors back gets the slices the script determines, and the stream is the released output |
| Terminal.SlicesChain | src/remote_host_mcp/terminal.py:260-280 | those slices are one for every read, each a piece of the full stream, consecutive ones meeting exactly except where truncation is flagged |
| GuardedWrite.WriteTextFile | src/remote_host_mcp/filesystem.py:301-434 | how a write ends in every case, answer, directory and unlinked entries: a refusal or an unexpected content leaves only what other processes did, a failed staging or publication takes the temporary file away again, a failed verification ends as the roll-back says, and otherwise it succeeds, in one atomic step from the fingerprinted object to the new file; so it also says exactly when it succeeds |
| GuardedWrite.RefusalIff | src/remote_host_mcp/filesystem.py:313-329 | each refusal by what stands under the name and what was asked |
| GuardedWrite.QuietWritePasses | src/remote_host_mcp/filesystem.py:330-405 | a guarded write with the digest of the destination passes every check as long as nobody else touches the destination, whatever else other processes do |
| GuardedWrite.ExchangeAndVerify | src/remote_host_mcp/filesystem.py:366-406 | exactly when the guarded commit succeeds, and which entry is unlinked in every other case |
| GuardedWrite.DisplacedIsExpected | src/remote_host_mcp/filesystem.py:377-397 | a verified displaced object is the fingerprinted one, unchanged from fingerprint to exchange, and had the expected digest then if either of its readings was undisturbed |
| GuardedWrite.BothWritesSlip | src/remote_host_mcp/filesystem.py:334-397 | for every destination and every content of another digest there is a schedule with writes in both readings that passes verification |
| GuardedWrite.OnlyOursIsRemoved | src/remote_host_mcp/filesystem.py:121-134 | after a failed verification nothing but our object is unlinked if and only if owning the destination at the check implies owning it at the exchange back |
| GuardedWrite.DisplacedIsKept | src/remote_host_mcp/filesystem.py:398-424 | if nothing touches the destination between the check and the exchange back, the displaced object ends up under its name or under the temporary one |
| GuardedWrite.PublishedContent | src/remote_host_mcp/filesystem.py:344-364 | the object published holds all of the data |
| GuardedWrite.Fingerprint | src/remote_host_mcp/filesystem.py:321-342 | the fingerprint is of the object opened, taken after its bytes were hashed, with other processes between any two reads |
| GuardedWrite.Stage | src/remote_host_mcp/filesystem.py:344-361 | partial writes add up to the whole data, or a write that takes nothing fails with a prefix |
| GuardedWrite.Publish | src/remote_host_mcp/filesystem.py:407-415 | without overwrite it succeeds if and only if the name is free at the instant of the rename |
| GuardedWrite.Folder.ReadAll | src/remote_host_mcp/filesystem.py:100-110 | what a piecewise read of an open object sees while others write to it |
| Folders.SteadyRead | src/remote_host_mcp/filesystem.py:100-118 | a read between two equal modification times saw the content |
| Folders.PlayApart | src/remote_host_mcp/filesystem.py:344-354 | processes that do not know a name neither see nor change its entry |
| DurableJobs.Run | src/remote_host_mcp/jobs.py:217-611 | any starts, observations, cancels, cleanups, recoveries, worker steps and process ends, with server crashes, make a trace with one reply for every operation |
| DurableJobs.JobsAreSafe | src/remote_host_mcp/jobs.py:217-611 | in every trace: at most one worker is ever launched for a job and for a key; keyed starts answered with a job are all answered with the same one for one and the same request, all but the first as reused; a terminal status told when no worker runs any more is told until cleanup |
| DurableJobs.LaunchedIff | src/remote_host_mcp/jobs.py:239-335 | exactly which operation launches a worker, and for which job: a start with a fresh or no key, below the limit, that did not die before the launch |
| DurableJobs.AcceptedIsMapped | src/remote_host_mcp/jobs.py:244-268 | a keyed start answered with a job leaves its key mapped to that job and request, and is a reuse if and only if it was mapped before |
| DurableJobs.JobServer.StartJob | src/remote_host_mcp/jobs.py:239-365 | state and answer for every key, limit, launch outcome and crash point: a used key is answered with its job or refused, also after cleanup, and a job is created only below the limit |
| DurableJobs.JobServer.CreateJob | src/remote_host_mcp/jobs.py:269-365 | the exact files, key and processes for every crash point, in the failed launch too, and for any steps the new worker takes before it is on record |
| DurableJobs.CreatedCreates | src/remote_host_mcp/jobs.py:269-365 | in each of those cases a worker runs only with its key on disk, for the new job alone, and everything else is as it was |
| DurableJobs.JobServer.JobStatus | src/remote_host_mcp/jobs.py:385-446 | the state and the answer `JobReports.StatusTold` and `JobReports.LookNotes` spell out: the stored result decides, without one the processes that can be seen; a job found interrupted is noted and loses its command |
| DurableJobs.RefreshedKeeps | src/remote_host_mcp/jobs.py:385-446 | observing any jobs keeps the invariant, every mapping and every final status |
| DurableJobs.JobServer.CleanupJob | src/remote_host_mcp/jobs.py:556-578 | the exact state and answer for every way of dying in between |
| DurableJobs.CleanupDoes | src/remote_host_mcp/jobs.py:556-578 | a removal is confirmed exactly when a finished job is gone; it touches no other job and forgets no key |
| DurableJobs.CleanedKeyIsRefused | src/remote_host_mcp/jobs.py:244-268 | after its job was removed a key starts nothing and is refused whatever is asked |
| DurableJobs.JobServer.RecoverJobs | src/remote_host_mcp/jobs.py:581-611 | the loop looks at every job once and cleans up the expired ones as it goes |
| DurableJobs.RecoveryDoes | src/remote_host_mcp/jobs.py:581-611 | recovery removes exactly the finished jobs whose time is up, notes every interrupted one and takes its command away, keeps the status of the others, and launches and ends nothing |
| DurableJobs.JobServer.CancelJob | src/remote_host_mcp/jobs.py:494-501 | an unfinished job gets the durable marker, a finished one is left alone |
| DurableJobs.JobServer.CountActive | src/remote_host_mcp/jobs.py:186-198 | the count is the number of jobs without a terminal status |
| JobWorld.WorkerKeeps | src/remote_host_mcp/job_worker.py:126-314 | whatever the worker does next, or wherever it dies, no final status changes |
| JobWorld.TerminalLastsIff | src/remote_host_mcp/jobs.py:385-446 | a terminal status outlasts everything its worker may still do if and only if no worker runs under the job |
| JobWorld.InterruptedIsNotFinal | src/remote_host_mcp/jobs.py:350-357 | every worker running under a job that reads as interrupted can still store another terminal status |
| DurableJobs.InterruptedCompletes | src/remote_host_mcp/jobs.py:324-357 | a run of start, crash behind the launch and worker steps in which a job is told to be interrupted and later to be completed |
| JobReports.StatusTold | src/remote_host_mcp/jobs.py:385-446 | in every trace a job without a result is told running, lost, starting, cancel requested or interrupted exactly by which of its two recorded processes can be seen and whether a cancel was asked for, and a job with a result by that |
| JobReports.EachStatusIsTold | src/remote_host_mcp/jobs.py:385-446 | a run for each of the ten statuses |
| JobReports.StartTold | src/remote_host_mcp/jobs.py:217-365 | what a start is answered, case by case, the limit counted by unfinished jobs |
| JobReports.CrashLeaves | src/remote_host_mcp/jobs.py:269-365 | what stands on disk for every crash point of a start |
| JobReports.NeverSpawns | src/remote_host_mcp/job_worker.py:126-161 | a worker that finds a cancel before it spawns its command, or no command, never spawns one |
| JobReports.Waits | src/remote_host_mcp/job_worker.py:206-247 | while it waits, the first of cancel and timeout counts, and the cancel comes first |
| JobReports.Stores | src/remote_host_mcp/job_worker.py:249-307 | what a worker stores once its command has ended, by cancel, timeout and exit code |
| JobReports.LookNotes | src/remote_host_mcp/jobs.py:405-417 | what looking at a job changes, and when |
| JobReports.CancelMarks | src/remote_host_mcp/jobs.py:494-501 | a cancel marks an unfinished job and nothing else |
| JobReports.CleanupLeaves | src/remote_host_mcp/jobs.py:556-578 | what a cleanup leaves wherever it dies, the tombstone first |
| Uploads.Run | src/remote_host_mcp/transfer.py:176-490 | an upload that can begin serves any requests and crashes as a trace, with one reply for every operation |
| Uploads.UploadIsSafe | src/remote_host_mcp/transfer.py:249-490 | in every trace for slices of one payload, in any order with retries, partial appends, expiry, aborts and crashes: staging is a prefix of the payload, at most one publication happens, of the whole payload with the expected digest, and a confirmed finish is confirmed by every later reply |
| Uploads.OffsetFallsIff | src/remote_host_mcp/transfer.py:249-490 | between two replies of an open upload the offset falls if and only if the first named more than 0 and in between the server died with the staging file gone and the status open; it is 0 from then on |
| Uploads.OffsetNeverFalls | src/remote_host_mcp/transfer.py:249-352 | without such deaths the offset never falls |
| Uploads.EveryDeathShows | src/remote_host_mcp/transfer.py:168-174 | each of the three deaths, in an expiry, a finish or an abort, is seen by a client as a fall to 0 of an upload still open |
| Uploads.BeginUpload | src/remote_host_mcp/transfer.py:176-246 | an upload begins empty, and exactly when its size, digest and target allow it |
| Uploads.Upload.Chunk | src/remote_host_mcp/transfer.py:249-325 | exactly when a chunk is confirmed as a repetition, appended, or refused, what it leaves of a failed append, and that a refusal changes nothing but an expiry |
| Uploads.Upload.Append | src/remote_host_mcp/transfer.py:306-312 | partial writes append what they take, all of it exactly on success |
| Uploads.Upload.Finish | src/remote_host_mcp/transfer.py:355-468 | exactly when a publication happens, what it publishes, and that a committed upload answers again without touching anything |
| Uploads.Upload.Abort | src/remote_host_mcp/transfer.py:471-490 | a committed upload refuses, any other loses its staging file |
| Uploads.Upload.Query | src/remote_host_mcp/transfer.py:328-352 | an open upload expires exactly when its time is past; the offset told is the size staged while open, all of it once committed, 0 once given up |
| Uploads.AbortAfterLostFinish | src/remote_host_mcp/transfer.py:442-458 | a finish that dies after its rename has published, yet the abort after it succeeds |
| UploadRuns.UploadWhole | src/remote_host_mcp/transfer.py:249-468 | sent in slices of any permitted size, in order and in time, a payload of the promised size and digest is published under the target name |
| UploadRuns.ChunkTold | src/remote_host_mcp/transfer.py:249-325 | in every trace a chunk is confirmed exactly if its digest is right, it is not too long, the upload is open and in time, and it lies within what is staged or begins behind it and is written in full; the offset told, and what is staged then |
| UploadRuns.FinishTold | src/remote_host_mcp/transfer.py:355-468 | in every trace a finish is confirmed, and publishes, exactly under the stated conditions |
| UploadRuns.StatusTold | src/remote_host_mcp/transfer.py:328-352 | in every trace the status and the offset told |
| UploadRuns.AdmitsIff | src/remote_host_mcp/transfer.py:391-441 | the target admits a publication by what stood there at each look and at the rename |
| UploadRuns.TakenIff | src/remote_host_mcp/transfer.py:306-312 | a row of write calls takes everything unless one of them takes nothing first |
| Snapshots.RoundTrip | src/remote_host_mcp/agent_ops.py:770-914 | capturing, any later changes and restoring succeeds if and only if the capture does and every entry finds its directory; then every captured path holds what it held then, and every path apart from them what it held just before |
| Snapshots.RestorableIff | src/remote_host_mcp/agent_ops.py:888-914 | every entry finds its directory if and only if that is there before the restore or comes back with an earlier entry |
| Snapshots.MeasuresAgree | src/remote_host_mcp/agent_ops.py:708-754 | the node and byte counts of a tree do not depend on the order its directories are listed in |
| Snapshots.MeasuresCount | src/remote_host_mcp/agent_ops.py:708-754 | a tree has as many nodes as paths and as many bytes as stand at them |
| Snapshots.PlainIff | src/remote_host_mcp/agent_ops.py:732-754 | a tree is plain if and only if nothing but files and directories stands at any path |
| Snapshots.SnapshotCreate | src/remote_host_mcp/agent_ops.py:770-820 | a capture succeeds if and only if the paths are distinct, plain and within all limits together, and its totals are the tree's measures |
| Snapshots.CopyNode | src/remote_host_mcp/agent_ops.py:708-754 | the copy equals the source and is charged its size, and is made if and only if the source is plain and affordable |
| Snapshots.CopyTree | src/remote_host_mcp/agent_ops.py:732-754 | the same for a directory, whatever order its names are listed in |
| Snapshots.RestoredAsCaptured | src/remote_host_mcp/agent_ops.py:888-914 | overlapping captured paths all come back as captured, in any order |
| Snapshots.ElsewhereUntouched | src/remote_host_mcp/agent_ops.py:888-914 | paths neither above nor below a restored one are left alone |
| Snapshots.FileTree.SnapshotRestore | src/remote_host_mcp/agent_ops.py:888-914 | entries are put back in order up to the first whose parent directory is missing |
| Snapshots.FileTree.RestoreEntry | src/remote_host_mcp/agent_ops.py:900-911 | staging, exchange and removal leave the copy in place and no trace of the temporary name |
| LinePatch.ApplyLinePatch | src/remote_host_mcp/agent_ops.py:1100-1132 | the text written is one forward merge of the edits, or the first fault of the first bad edit in line order |
| LinePatch.Patcher.SpliceAll | src/remote_host_mcp/agent_ops.py:1121-1129 | splicing from the last edit to the first gives the lines of one left-to-right pass |
| LinePatch.MergeIsWoven | src/remote_host_mcp/agent_ops.py:1121-1130 | the text of the result is what stands in front of each edit, its replacement, and so on behind the lines it deletes |
| LinePatch.FaultlessIsApart | src/remote_host_mcp/agent_ops.py:1110-1120 | the checks pass if and only if the edits lie inside the text and pairwise apart |
| LinePatch.FaultIsFirst | src/remote_host_mcp/agent_ops.py:1111-1120 | the fault told is that of the first edit in line order that lies outside the text or overlaps its predecessor |
| LinePatch.SplitJoins | src/remote_host_mcp/agent_ops.py:1108-1108 | splitting loses nothing and cuts behind every line break and nowhere else |
| LinePatch.CutsAtBreaks | src/remote_host_mcp/agent_ops.py:1108-1108 | a text is cut exactly behind the ten line breaks of str.splitlines, and never inside CR LF |
| LinePatch.SortIsStable | src/remote_host_mcp/agent_ops.py:1109-1109 | the order of edits is a permutation by line that keeps the given order within a line |
| LinePatch.UntouchedStays | src/remote_host_mcp/agent_ops.py:1121-1129 | every line outside the edits is in the result, moved by what the edits before it added and deleted |
| LinePatch.InsertionsKeepOrder | src/remote_host_mcp/agent_ops.py:1121-1129 | any number of insertions at one line come out whole and in the order given |
| Leases.Run | src/remote_host_mcp/agent_ops.py:948-1026 | any acquisitions, questions and releases under any clock make a trace with one reply for every operation |
| Leases.GrantsAreExclusive | src/remote_host_mcp/agent_ops.py:948-1026 | in every trace under a clock that never goes back, two grants of one resource are separated by a release of the first token or by its expiry |
| Leases.TakeIsTold | src/remote_host_mcp/agent_ops.py:974-997 | in every trace under a clock that never goes back: which requests are refused; a well-formed one is granted, for its time to live and under a new token, if and only if no earlier grant of the name is still in force, and otherwise told the holder and the expiry of that one |
| Leases.AskAndGiveAreTold | src/remote_host_mcp/agent_ops.py:1000-1026 | in every trace: who asks is told the lease in force, and a release is confirmed if and only if a lease with the token is in force |
| Leases.LeasesStayDistinct | src/remote_host_mcp/agent_ops.py:948-1026 | at every point at most one lease names a resource and one resource a token |
| Leases.Registry.Acquire | src/remote_host_mcp/agent_ops.py:981-997 | a lease is granted if and only if no running lease names the resource, and otherwise the holder is told |
| Leases.Registry.Release | src/remote_host_mcp/agent_ops.py:1018-1026 | a release ends the lease with its token and no other |
| Leases.Registry.Status | src/remote_host_mcp/agent_ops.py:1000-1008 | the stripped name is looked up among the running leases, and whatever is found, expired ones go |
| TextReader.ReadTextFile | src/remote_host_mcp/filesystem.py:193-265 | for every sequence of read sizes: a contiguous slice from the start line, within both budgets, touching exactly the lines reported, truncated if and only if bytes remain, which happens at a budget or at the first read boundary inside the last permitted line |
| TextReader.ScanChunk | src/remote_host_mcp/filesystem.py:213-257 | the five loop variables describe one position in the file across reads of any size |
| TextReader.TouchedAt | src/remote_host_mcp/filesystem.py:232-255 | how many lines a prefix has a part in, from where it ends |
| TextReader.FullReads | src/remote_host_mcp/filesystem.py:214-214 | reads that are not cut short come in pieces of 65536 bytes |
| Utf8.TruncatesToLongest | src/remote_host_mcp/audit.py:57-62 | the result is the longest prefix whose encoding fits; it is within the limit if and only if the limit is not negative |
| Utf8.CharRoundTrip | src/remote_host_mcp/audit.py:59-62 | an encoded character is one complete sequence of section 3 of RFC 3629 and decodes to itself |
| Utf8.EncodedBits | src/remote_host_mcp/audit.py:59-62 | the bits of a character in its octets, as in section 3 of RFC 3629 |
| Utf8.DecodeEncode | src/remote_host_mcp/audit.py:59-62 | decoding gives the text back and drops an incomplete character behind it |

## Left out

- Input and output errors (failed reads, renames, fsync) beyond partial writes, crashes and the failures named in the contracts; the code's answers to them are mostly to keep going in place.
- Path resolution, allowed roots, symlink traversal, file modes, timestamps and ownership: decided by the kernel or plumbing around the modelled steps.
- Redaction and JSON encoding; a queued event is the parsed one with the fields its report level withholds removed.
- Heartbeats, configuration pulls and back-off arithmetic of the reporter; a poll is told whether a retry is waiting and whether the interval has passed.
- Locks: each operation is atomic apart from the crash points and interleavings named; the writes of `start_job` and of a worker to one metadata file touch different fields under one lock.
- AuditTailing.AuditTail.ReadNew: a poll is atomic against rotation; a rotation between two of its system calls is not modelled.
- LogDelivery.Run: restarts inside a poll and unacknowledged events at its end are excluded because the claim is false there, as `TailPlan` and `TailLosses` show; so are rotations and restarts once a catch-up is held up by an overlong line.
- LogDelivery.Poll: the file stands still during one poll; writes between two reads are in `LogTracking.Run`, where the reader need never reach the end.
- LogTracking.Run: operations that are not allowed at their turn end the claim; `TailPlan` and `TailLosses` show the losses and repetitions behind the conditions.
- JobWorld.WorkerKeeps: the worker's polling loop is a step machine rather than a loop, because server operations interleave at every step; log draining, heartbeats and signals are not part of it.
- DurableJobs.JobServer.StartJob: validation of the command, directory and timeout happens before anything modelled here; other requests do not observe a job whose start is still under way.
- DurableJobs.JobServer.CancelJob: signals to the process group and the wait for the job to end are left to the worker's and the environment's steps.
- GuardedWrite.WriteTextFile: the unguarded overwrite replaces whatever is there; modification times are assumed to tell any two writes apart.
- Uploads.Upload.Finish: other processes do not touch the staging file, so the identity check before the rename always passes.
- Snapshots.SnapshotCreate: the tree does not change while it is captured; labels, modes and the manifest's own encoding are left out.
- LinePatch.ApplyLinePatch: reading the file and the final guarded write are parameters and `GuardedWrite.WriteTextFile` respectively.
- Terminal.TerminalSession.ReadSlice: waiting for output is not modelled; neither are the screen emulator and the process behind the terminal.
- Terminal.TerminalSession.StripOsc: exit codes of more than 4300 digits, which the code ignores, are taken at their value.
- Leases.Registry.Acquire: a registry file that has grown too large is refused by the code; its size is not modelled.
- Leases.Registry.Release: tokens are numbers here, so the check of a token's form is left out.
- Uploads.Upload.Chunk: the data arrive decoded; the refusal of malformed base64 is left out.
- Utf8.TruncatesToLongest: text holds Unicode scalar values; unpaired surrogates, which cannot be encoded, are excluded.
- Moving, copying and removing paths, artifacts, command execution, SSH, HTTP, authentication and installation.
