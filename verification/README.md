# Verification of the executor's protocols and of the site context

A Dafny model of the three parts of `src/rcac_mcp` where most of its concurrency, branching and
arithmetic lives, and proofs of what they promise.

**Reconnecting and writing over SSH (`executor/ssh.py`).** `Reconnect` is `SSHExecutor`'s reconnect protocol
as a transition system: one step for each region held under the executor's lock, one for each unlocked
action between them (a poll, a backoff, a transport closed, a connection released), any finite set of calls
and openers in any interleaving, and an environment that passes time, kills connections and lets an attempt
succeed or fail whenever it may. `Regions` gives the locked regions as functions; `Executor` has the same
regions as methods of the classes the source has, each proved to do to its objects what its function says.
`ReconnectSafety` proves what holds on any clock. `ReconnectTime` proves what holds on any clock of the
backoff, and what holds on an ideal one (time passes only while every call waits or sleeps) of deadlines,
leads and termination. `ReconnectTurns` says of every step what it leaves, by the state alone, and that no call gives
up while it could still try. `Crc` proves the checksum trick against the utility's own definition, a division of
bit polynomials. `StagedWrite` is `write` as it runs, a call at a time, with the server, the link, the storage
and the remote program each free to fail at any of them. `Loops` is the symbolic-link walk with its explicit
stack. `Auth` is the verdict over nested authentication failures.

**Framing (`executor/launch.py`, `_collect` in `executor/ssh.py`).** `Records` has the end record, its printer and
the incremental scan; `Framing` has `separate`; `Collect` and `Pipes` have the two readers of growing streams, an
SSH channel and a local launch. `Words` prints arguments as shell words and reads them back with a tokenizer of
the shell's quoting; `Shell` has what a shell captures of output, and the launch that rests on it.

**Site context (`site.py`).** `Display` has names as they are shown and cut, `Site` the files found and their order,
`Compose` the packing within a budget, `PathWalk` the directory walk by descriptor, `ReadChecked` the read for
every account, `Base64` and `Listing` the remote listing's wire format.

Octets are numbers below 256, text is a sequence of Unicode scalar values, times are reals, mode bits are bit
vectors, and integers are unbounded as Python's are. Randomness is a precondition on the nonces and the tokens
drawn; the network, the server's file system and the scheduler are arbitrary functions from a step's number to an
answer, so a statement about all of them is a statement about every adversary and every schedule. Text codecs
(UTF-8 with replacement, `os.fsencode`) are function parameters.

Where the code and its own words differ, the code is what is modelled:

- `separate` would also answer `NOT_STARTED_EXIT_CODE` for a command that did start, were that the wire's own code
  and no stream's end reported (`Framing.NotStartedExactly`). No wire gives that code (`Collect.CollectedCode`,
  `Pipes.RanCode`), and for those they give the words hold (`Framing.NotStartedByWire`).
- Schedule independence needs more than a record in each stream: `_collect` looks for records in the whole stream
  and `separate` only after the sentinel. It holds if and only if the first record of each stream starts after its
  sentinel (`Collect.IndependentExactly`, with a stream where it does not in `Collect.UnframedStream`); a stream
  that a printed sentinel and record make is such a one, whatever the noise holds short of a record
  (`Framing.PrintedIsFramed`).
- `_reach`'s flag does not count the directory a closing `.` is looked up in, which pathname resolution searches,
  when nothing else is looked up there (`PathWalk.DotIsPassed`, `PathWalk.ClosingDot`, `PathWalk.FlagExactly`). The
  decision to read is not affected (`PathWalk.OpenExactly`): who may list a directory may search it.
- `_read_for_everyone` does not skip an entry that has become a directory when it is opened: the read fails as
  unreadable, since a directory cannot be made a stream (`ReadChecked.ReadOpened`).

`dafny verify dfyconfig.toml` checks the whole project.

## Model

| member | source | states |
|---|---|---|
| ReconnectSafety.InvHolds | src/rcac_mcp/executor/ssh.py:738-917 | every state of every run of the protocol, under any interleaving, keeps the whole invariant: slot, workers, publications, transports, calls, waiters and the account of connections |
| ReconnectSafety.AbortNeverCrossesPublish | src/rcac_mcp/executor/ssh.py:771-844 | a transport closed by an abort, at any state of a run, belongs to a connection that no state of that run publishes, and no attempt marked aborted ever has its connection published |
| ReconnectSafety.DoneIsFrozen | src/rcac_mcp/executor/ssh.py:780-797 | once an attempt is done, its error, transport, waiters and `aborted` never change again |
| ReconnectSafety.SingleFlight | src/rcac_mcp/executor/ssh.py:473-488 | the slot is set exactly when one unsettled worker exists, a thread that cannot start included, and while an attempt is not done its `waiters` is the number of calls waiting on it |
| ReconnectSafety.HonestOutcomes | src/rcac_mcp/executor/ssh.py:900-917 | a call returns the transport of a connection that was published, or a message naming no cause or the failure of an attempt that was done and not aborted |
| ReconnectSafety.SuccessWasPublished | src/rcac_mcp/executor/ssh.py:789-797 | a done attempt without an error carries the transport of a connection that was published |
| ReconnectSafety.Conservation | src/rcac_mcp/executor/ssh.py:705-799 | every connection ever built, and nothing else, is at each moment in exactly one place: in a worker's or an opener's hands, published, or released |
| ReconnectSafety.DisplacesOnlyDead | src/rcac_mcp/executor/ssh.py:738-751 | the published connection changes only at a step of a worker or an opener, only when it is not live, and the one displaced is then owed a release by that thread |
| ReconnectSafety.RunGrows | src/rcac_mcp/executor/ssh.py:771-844 | along a run nothing built, made or published is forgotten, an aborted attempt stays aborted with its connection, and a done record is the same record |
| ReconnectTime.AtMostNineFailures | src/rcac_mcp/executor/ssh.py:56-68 | on any clock, a call with the default 45 s window takes at most 9 failures as its cause |
| ReconnectTime.BackoffHolds | src/rcac_mcp/executor/ssh.py:905-917 | in every state of every run, a call that has taken n failures has slept the first n - 1 doubled, capped waits, and its next one is the n-th |
| ReconnectTime.LimitExists | src/rcac_mcp/executor/ssh.py:56-68 | whatever its window, some number of failures fills a call's time up to its last start |
| ReconnectTime.FailuresWithin | src/rcac_mcp/executor/ssh.py:905-917 | a number of failures that fills the window bounds the failures a call takes |
| ReconnectTime.NothingAfterLastStart | src/rcac_mcp/executor/ssh.py:873-899 | with an ideal clock a call starts or joins no attempt after its deadline less the lead |
| ReconnectTime.BackByDeadline | src/rcac_mcp/executor/ssh.py:846-917 | with an ideal clock a call has returned once its deadline has passed, or at once when it came after it |
| ReconnectTime.AbortedRanForLead | src/rcac_mcp/executor/ssh.py:816-844 | with an ideal clock an attempt is aborted only after it has run for the lead, and settles no earlier |
| ReconnectTime.FewAttempts | src/rcac_mcp/executor/ssh.py:873-917 | with an ideal clock a call starts or joins at most two attempts for each failure it takes and two more: at most 20 with the default window |
| ReconnectTime.OwnStepFalls | src/rcac_mcp/executor/ssh.py:866-917 | with an ideal clock every step of a call's own lowers its rank: failures left, whether an aborted attempt may still be met, where it is in the loop, polls left |
| ReconnectTime.RankIsNatural | src/rcac_mcp/executor/ssh.py:905-917 | a call's rank cannot fall for ever: the failures left in it never go below none |
| ReconnectTime.OtherStepKeeps | src/rcac_mcp/executor/ssh.py:866-917 | no other thread's step moves a call or raises its rank |
| ReconnectTime.RankFallsForGood | src/rcac_mcp/executor/ssh.py:866-917 | so along a run a call's rank never rises and each step of its own leaves it lower for good: a call takes finitely many steps |
| ReconnectTime.CanStep | src/rcac_mcp/executor/ssh.py:866-917 | a call that has not returned, and is neither asleep nor waiting on a poll not yet over, has a step to take: none is stuck |
| ReconnectTurns.TurnIs | src/rcac_mcp/executor/ssh.py:873-899 | at every turn of every run, by the state alone: the live connection's transport is returned while nothing is in flight; else a call whose last start has passed, and which has not just slept, reports its last cause; else it waits on the attempt in flight, one waiter more, or on one it has just started, or reports that its thread could not start, the slot free again |
| ReconnectTurns.CallStepIs | src/rcac_mcp/executor/ssh.py:866-917 | what every other step of a call leaves: the fast path; a poll every tenth of a second until the deadline; a departure, the last one aborting; an abort exactly of an attempt not done, without waiters, that made a transport, and of all its transports; and of an outcome, its transport, another turn for an aborted attempt, an immediate report of a refusal or past the last start, else the doubled, capped backoff |
| ReconnectTurns.SettleIs | src/rcac_mcp/executor/ssh.py:771-799 | an attempt that settles is done and its slot free, with its failure, or the transport of the connection published, or, once aborted, as failed and owed a release |
| ReconnectTurns.WorkerStepIs | src/rcac_mcp/executor/ssh.py:753-769 | what each of a worker's other steps leaves: a connection built and not connected yet, shared, opened, connected if it says so, and let go when it failed or is owed a release |
| ReconnectTurns.OpenIs | src/rcac_mcp/executor/ssh.py:705-722 | a thread in `open` builds nothing while a connection is live, and publishes its own as an attempt's is |
| ReconnectTurns.OpenerStepIs | src/rcac_mcp/executor/ssh.py:705-722 | and what its other steps leave, likewise |
| ReconnectTurns.GivesUpOnlyFor | src/rcac_mcp/executor/ssh.py:846-917 | on any clock a call gives up only when its last start has passed, for a refusal, or when a thread of its own could not start |
| ReconnectTurns.StillTrying | src/rcac_mcp/executor/ssh.py:846-917 | with an ideal clock a call that gives up for no refusal and no thread of its own came too late to try, or an attempt it was on was still going when its last start passed |
| ReconnectTurns.SuccessIsUsed | src/rcac_mcp/executor/ssh.py:900-903 | once the attempt a call is on has succeeded, the call returns that attempt's transport and nothing else, whatever the clock and its deadline |
| Executor.SSHExecutor.PublishConn | src/rcac_mcp/executor/ssh.py:738-751 | a live published connection stays and the new one is dropped; else the new one takes its place, the old one is dropped and the window is three times its bound |
| Executor.SSHExecutor.SettleFailure | src/rcac_mcp/executor/ssh.py:780-788 | the failure is recorded, the slot freed if it is this attempt's, and the attempt done |
| Executor.SSHExecutor.SettleSuccess | src/rcac_mcp/executor/ssh.py:789-797 | an aborted attempt is recorded as failed and its connection dropped; any other is published; the slot is freed and the attempt done |
| Executor.SSHExecutor.LeaveAttempt | src/rcac_mcp/executor/ssh.py:807-811 | a call leaves unless the outcome has come, and is told whether it was the last |
| Executor.SSHExecutor.AbortAttempt | src/rcac_mcp/executor/ssh.py:833-839 | the attempt is marked, and its transports handed out to be closed, exactly when it is not done, no call waits on it and it has made one |
| Executor.SSHExecutor.JoinOrStart | src/rcac_mcp/executor/ssh.py:883-899 | the call joins the attempt in flight, or starts one; one whose thread cannot start is failed and the slot freed |
| Executor.SSHExecutor.TakeTurn | src/rcac_mcp/executor/ssh.py:874-899 | the whole region, each choice by its condition: the live connection is used exactly when nothing is in flight, the call stops exactly past its last start when it has not just slept and none can be used, else it joins or starts, and nothing else changes |
| Crc.ReversedCrcIsPosix | src/rcac_mcp/executor/ssh.py:618-632 | for every byte string, the reflected CRC of the bit-reversed octets and length, its binary text reversed, is the remainder the utility's definition gives, complemented |
| Crc.ReversedCrcDivides | src/rcac_mcp/executor/ssh.py:618-632 | for every polynomial, not only this one, a reflected CRC over reversed octets, reversed, is a division by the polynomial reversed |
| Crc.ShiftDivides | src/rcac_mcp/executor/ssh.py:618-632 | feeding bits at the top of a shift register is dividing the message followed by 32 zeros |
| Crc.Cksum | src/rcac_mcp/executor/ssh.py:618-629 | what is computed, the length's octets by a loop, is what the utility prints: the CRC and the size |
| Crc.LengthOctetsAre | src/rcac_mcp/executor/ssh.py:624-627 | the octets appended write the length, the least significant first, and are no more than it needs |
| Crc.GeneratorIs | src/rcac_mcp/executor/ssh.py:618-632 | the polynomial is 0x04C11DB7 |
| Crc.NothingIsSummed | src/rcac_mcp/executor/ssh.py:618-629 | of nothing the text is `4294967295 0` |
| StagedWrite.Remote.Write | src/rcac_mcp/executor/ssh.py:996-1080 | for an overwrite placed by a rename, if the storage keeps the checksum's text as sent: at every moment since the call the target is as it was, or a file with the length and CRC of `data` (its very bytes, if the storage keeps those), and exit 0 leaves the latter with the bits due. For every write: all else there was is as it was at every moment; one that raised or did not run leaves the target as it was; without a link loss or a failed removal nothing but the target differs in the end. And for every write that may land, by the disk and the server alone (`Lands`), with a user who may write the target and tokens not in use: if the link holds, every call and command works and the storage keeps what it is sent, or only the target's directory is closed to new entries, the write ends in exit 0 with exactly the bytes due, overwritten, added or written through; a directory raises that it is one; what is placed by a rename was staged beside its target; and a status is reported only over a link that was up |
| StagedWrite.Remote.Program | src/rcac_mcp/executor/ssh.py:122-137 | whatever step of the placing program fails or dies, the disk stays sound; status 0 means verified and placed whole (or added to, or poured into, the target byte for byte), over a file its user may write when one is replaced |
| StagedWrite.Remote.Upload | src/rcac_mcp/executor/ssh.py:593-615 | a transfer that arrives had every reply, the close's too, and is what the storage kept of the bytes sent, of their size and private; one arrives where the link holds and all works; at every moment what is staged is private or holds nothing but zeros, and nothing else has changed |
| StagedWrite.Remote.StageNear | src/rcac_mcp/executor/ssh.py:1044-1052 | the staging directory is made beside the target, or in the login home where the target is written through, as an existing file is whose directory is closed to new entries; it is made where the link holds |
| StagedWrite.Remote.Discard | src/rcac_mcp/executor/ssh.py:635-641 | the target is untouched, the area is gone when the link holds and no removal fails, and its directory goes only once nothing lies in it |
| StagedWrite.WholeOrNotAtAll | src/rcac_mcp/executor/ssh.py:996-1025 | in any sound state of such an overwrite, whatever was sent and kept of it, the target is as it was or `data`'s |
| StagedWrite.ExitZeroMeans | src/rcac_mcp/executor/ssh.py:532-565 | exit 0 of such an overwrite leaves a file with the length and CRC of `data`, the old one's permission bits but setuid and setgid (a new file's under the umask), the execute bits if asked for, over a file its user could write |
| StagedWrite.CorruptIsUntouched | src/rcac_mcp/executor/ssh.py:130-132 | for every way of placing, content the storage did not keep to the length and the CRC of `data` leaves the target as it was at every moment |
| StagedWrite.PouredMeans | src/rcac_mcp/executor/ssh.py:134-137 | exit 0 of an append has added `data` to the file's bytes, and of a write through a file has left `data`, the file's own mode, or a new one's, kept but for the execute bits asked for |
| StagedWrite.VerifiedExactly | src/rcac_mcp/executor/ssh.py:130-132 | the check passes, as the shell captures both checksums, exactly for content with the length and the CRC of `data` |
| StagedWrite.LandingIs | src/rcac_mcp/executor/ssh.py:532-565 | the mode kept is the target's own bits but setuid and setgid, missing means missing, and only what exists and is no regular file is written through |
| StagedWrite.LandsExactly | src/rcac_mcp/executor/ssh.py:532-565 | a write lands exactly where nothing, a file or a special file is, at the path itself or at what a link resolves to in a directory that exists; else it is refused, as a directory or a missing file |
| StagedWrite.AreaIsApart | src/rcac_mcp/executor/ssh.py:568-576 | a staging directory not there before holds nothing else, and neither it nor its files are the target |
| Loops.LoopsExactly | src/rcac_mcp/executor/ssh.py:498-529 | the bounded walk answers true exactly when resolution with no limit passes through more than 40 links |
| Loops.PathIsRecursion | src/rcac_mcp/executor/ssh.py:498-529 | and exactly when the recursive definition, which resolves a link's text where the link is, counts more than 40 |
| Loops.PathLoops | src/rcac_mcp/executor/ssh.py:505-529 | the loop over the one stack, popped at its end, gives that answer, and false when the home cannot be asked |
| Loops.NextIsProper | src/rcac_mcp/executor/ssh.py:512-526 | the directory of the walk is always a clean absolute path |
| Loops.NonemptyExactly | src/rcac_mcp/executor/ssh.py:507 | the components are the parts that are not empty, each once, in their order |
| Paths.UpUndoesStep | src/rcac_mcp/executor/ssh.py:513-516 | from a clean path, the parent of a step is the directory it was taken from |
| Paths.SplitRejoins | src/rcac_mcp/executor/ssh.py:507-526 | a path's parts, a slash between each, are the path |
| Auth.EndingIsVerdict | src/rcac_mcp/executor/ssh.py:376-416 | for every finite tree of failures the mutually recursive pair ends as the leaves say, left to right |
| Auth.RefusedExactly | src/rcac_mcp/executor/ssh.py:394-416 | refused exactly when every leaf is a refusal; else the ending of the first leaf that is none |
| Auth.LeafEndsAs | src/rcac_mcp/executor/ssh.py:403-416 | a leaf ends as closed or timed out by Paramiko's own words, unless its class is a refusal's; any other authentication, and one that tried nothing, as refused; anything else as none |
| Auth.CauseIs | src/rcac_mcp/executor/ssh.py:376-391 | the deciding failure is what the first source not refused decides, else the last source's, else the exception itself |
| Auth.FailuresExactly | src/rcac_mcp/executor/ssh.py:386-387 | the failures are those of the sources that failed, each once, in their order |
| Records.PrintedRecord | src/rcac_mcp/executor/launch.py:173-184 | a printed record, wherever it lies, is read back as the status it was printed for and ends where it was printed to |
| Records.Record | src/rcac_mcp/executor/launch.py:324-331 | the search by nonce, stepping past an occurrence that no tail follows, finds the first complete record |
| Records.TailExactly | src/rcac_mcp/executor/launch.py:184 | a tail is read exactly where a kind, one to three digits and a full stop are, with the number the digits write |
| Records.ResumeSkipsNothing | src/rcac_mcp/executor/ssh.py:233-240 | a scan that found nothing may resume 5 octets and a nonce before the end: whatever arrives, no record that completes later starts earlier |
| Records.ResumeRereads | src/rcac_mcp/executor/ssh.py:239 | and reads again no more than the longest record |
| Records.NoStraddle | src/rcac_mcp/executor/launch.py:183-184 | a complete record ends before any later occurrence of a nonce begins |
| Records.FirstRecordStays | src/rcac_mcp/executor/launch.py:324-331 | more bytes never change the first record |
| Framing.Separate | src/rcac_mcp/executor/launch.py:345-395 | the accumulated streams, statuses and notes make the answer that the two streams' parts do |
| Framing.PartIsCut | src/rcac_mcp/executor/launch.py:340-342 | a stream without the sentinel gives nothing; without a record, all that follows the sentinel; with one, what lies between and the record's status |
| Framing.AnswerIs | src/rcac_mcp/executor/launch.py:360-395 | stdout, stderr and the code case by case: a command that never started, a stream redirected, an end not reported, a wire interrupted; stdout's status, else stderr's, else the wire's; the notes in their order, the wire's last |
| Framing.NotStartedExactly | src/rcac_mcp/executor/launch.py:362-371 | not started is answered exactly when neither stream holds the sentinel and the wire reported no timeout or loss, or when that was the wire's own code and no stream reported an end |
| Framing.NotStartedByWire | src/rcac_mcp/executor/launch.py:362-371 | for every code a wire can give, exactly when neither stream holds the sentinel and the wire reported no timeout or loss |
| Framing.InterruptedExactly | src/rcac_mcp/executor/launch.py:351-361 | a timeout stays a timeout and a loss a loss, nothing else becomes one, and the wire's note always ends stderr |
| Framing.RoundTrip | src/rcac_mcp/executor/launch.py:340-395 | noise, sentinel, output, record, and anything after: both outputs and the status come back exactly, for every output that holds no complete record |
| Framing.StatusPrintable | src/rcac_mcp/executor/launch.py:173-184 | every status of a command is printable and is read back within -127 and 255, a death by a terminating signal N as -N and any other status as itself |
| Framing.FramedExactly | src/rcac_mcp/executor/ssh.py:214-256 | a stream that carries an end is served alike wherever it is cut past its first record, if and only if that record starts after the sentinel |
| Framing.PrintedIsFramed | src/rcac_mcp/executor/launch.py:304-312 | a printed stream is one of those, when its noise holds no record and the sentinel with the output none |
| Collect.CollectChannel | src/rcac_mcp/executor/ssh.py:214-256 | the loop over growing buffers, each scan resuming where the last stopped, reads what scans of the whole would |
| Collect.EndsExactly | src/rcac_mcp/executor/ssh.py:224-256 | for every script of rounds: the read goes on while a record is missing, the channel is open and the deadline has not passed, and its first other round ends it with the exit status or -1, or as lost exactly when the channel closed without its end of output and short of a record, or as timed out, the note naming the status exactly where one has come |
| Collect.ScheduleIndependent | src/rcac_mcp/executor/ssh.py:214-256 | for every split into chunks and every arrival of status, end of output and close, a read that ends is served as the whole of the two streams would be |
| Collect.IndependentExactly | src/rcac_mcp/executor/ssh.py:214-256 | of two streams that carry an end, every schedule is served alike if and only if the first record of each starts after its sentinel |
| Collect.UnframedStream | src/rcac_mcp/executor/ssh.py:236-242 | a stream that is not so: one with a record printed before the sentinel |
| Collect.CollectedCode | src/rcac_mcp/executor/ssh.py:241-255 | the wire's code is an exit status that arrived, -1, a timeout or a loss |
| Collect.PrintedSchedules | src/rcac_mcp/executor/ssh.py:214-256 | over printed streams that one result is the command's own outputs and status, whatever background jobs print after them |
| Collect.EndsWithRecords | src/rcac_mcp/executor/ssh.py:241-242 | a read ends no later than the round that has both records in |
| Pipes.Pipes.ReadStream | src/rcac_mcp/executor/launch.py:501-518 | a pipe's incremental scan marks it done and recorded as a scan of all it has carried would |
| Pipes.RunProcess | src/rcac_mcp/executor/launch.py:571-611 | the launch's loop ends with what a run of whole scans ends with |
| Pipes.LaunchEndsExactly | src/rcac_mcp/executor/launch.py:584-611 | for every script of turns: the launch goes on until both streams are done with a record seen, it exits or the deadline passes, and then gives all that was read and its reaped status, its status, or a timeout |
| Pipes.ReadIs | src/rcac_mcp/executor/launch.py:501-518 | a read adds what it finds to its stream, which is done at its end or once it holds its record, and leaves the other alone |
| Pipes.RanCode | src/rcac_mcp/executor/launch.py:592-611 | the wire's code is the launch's own status or a timeout |
| Pipes.LaunchIndependent | src/rcac_mcp/executor/launch.py:571-611 | a launch's read is served the same on every schedule |
| Pipes.WiresAgree | src/rcac_mcp/executor/launch.py:571-611 | and alike by the SSH channel and the local launch of the same two streams |
| Words.ArgvRoundTrip | src/rcac_mcp/executor/launch.py:299-304 | the shell's tokens of the printed line are `exec` and one field for each argument, each its value, for every argv without a NUL |
| Words.QuoteReads | src/rcac_mcp/executor/launch.py:248-263 | a quoted text reads as itself whatever it holds and whatever it follows |
| Words.ValueIs | src/rcac_mcp/executor/launch.py:248-263 | a plain argument is itself; a path in the home is the home, or the home, one slash and all of the path past its leading slashes; any other relative path gains `./`; no path can be taken for an option |
| Shell.ProgramArrives | src/rcac_mcp/executor/launch.py:407-413 | the program sent as one base64 word is one word to the shell, and is started octet for octet, its trailing newlines with it |
| Shell.CapturedExactly | src/rcac_mcp/executor/launch.py:194-198 | a shell captures output without a NUL as it is if and only if no newline ends it, which is what the full stop printed after it is for |
| Shell.CapturedIs | src/rcac_mcp/executor/launch.py:194-198 | what is captured of output without a NUL is all of it but the newlines at its end |
| Shell.NoNulCaptured | src/rcac_mcp/executor/launch.py:194-198 | no NUL is ever captured |
| Shell.BadWordStartsNothing | src/rcac_mcp/executor/launch.py:194-198 | a word that base64 did not print starts nothing, rather than an empty program |
| Compose.Compose | src/rcac_mcp/site.py:648-675 | a budget is refused exactly when some read that finds nothing would not fit in it or nothing of this site would, and the minimum named is the least that is not; else the text is the form of everything if that fits, or of a selection that fits, from which any other that fits differs first at a file this one serves and to which no file can be added |
| Compose.FloorExactly | src/rcac_mcp/site.py:626-640 | the floor is the least budget that serves every read that fails or finds nothing |
| Compose.MinimumIsLeast | src/rcac_mcp/site.py:633-645 | the minimum is the least budget that is not refused |
| Compose.BlockIsServed | src/rcac_mcp/site.py:619-623 | the base is never cut, and the block of each file served is in the text whole, after the heading |
| Compose.NameIsServed | src/rcac_mcp/site.py:609-623 | each file left out is named, as names are shown, in the note that ends the text |
| Compose.PackingIsGreatest | src/rcac_mcp/site.py:648-675 | when the whole text does not fit, any selection that fits differs from the packing first at a file the packing serves |
| Compose.NothingCanBeAdded | src/rcac_mcp/site.py:664-674 | no file left out could be served as well |
| Compose.SizeGrows | src/rcac_mcp/site.py:609-623 | serving more never takes less room while a note is left, separators counted |
| Compose.RefusedExactly | src/rcac_mcp/site.py:633-645 | a budget is refused exactly when it has no room for the base with the longest reason a read can end in, or for any selection at all |
| Compose.WithinBudget | src/rcac_mcp/site.py:648-675 | what is served is within the budget, and a refusal is exactly a budget below the minimum |
| Compose.EachFileOnce | src/rcac_mcp/site.py:664-675 | every file is in exactly one of the blocks and the note, in order and by position, even when names and texts repeat |
| Compose.EveryReadFits | src/rcac_mcp/site.py:626-645 | a budget that serves a good read serves every read that fails or finds nothing, at either place and for any reason, at the default timeout |
| Display.ShownIsRead | src/rcac_mcp/site.py:239-243 | a decoder recovers every text from its shown form |
| Display.ShownInjective | src/rcac_mcp/site.py:239-243 | no two texts are shown alike |
| Display.ShownIsOneLine | src/rcac_mcp/site.py:225-243 | no shown text holds a control or line-breaking character |
| Display.PlainIsShown | src/rcac_mcp/site.py:230-243 | a text is shown as it is exactly when it holds no such character and no backslash |
| Display.UnitsAreUtf16 | src/rcac_mcp/site.py:604-606 | a length in units is that of the text in UTF-16 |
| Display.CutIsLongest | src/rcac_mcp/site.py:246-256 | a cut is the text, or its longest start that fits the limit with the ellipsis; it fits wherever the ellipsis does |
| Display.CutIsOneLine | src/rcac_mcp/site.py:246-260 | nor does any cut of a shown text |
| Display.CutText | src/rcac_mcp/site.py:246-256 | the loop that spends the room a character at a time gives that cut |
| Site.FoundIs | src/rcac_mcp/site.py:172-179 | what is found is the files that are not blank, each as often as it was read, in the byte order of their names; of none, that there are no rules, which is no failure |
| Site.AtMostIs | src/rcac_mcp/site.py:172-176 | that order is lexical: of two names one is a start of the other, or has the lesser octet where they first differ |
| Site.EligibleExactly | src/rcac_mcp/site.py:211-212 | eligible is every name that ends in `.md` but `AGENTS.md` |
| Site.FoundAnyOrder | src/rcac_mcp/site.py:172-179 | under distinct names the order a directory lists them in is no matter |
| PathWalk.Walker.WalkAll | src/rcac_mcp/site.py:381-423 | the recursive walk over its variables, a descriptor checked once, does what the walk over directories does, and its flag says whether every directory searched may be searched by every account |
| PathWalk.Reach | src/rcac_mcp/site.py:381-426 | from the root, it reaches the walk's directory with that flag, or raises its error |
| PathWalk.WalkRefinesResolution | src/rcac_mcp/site.py:381-426 | on bindings nobody changes the walk ends at the directory pathname resolution names, its route the physical ancestor chain, having searched the same directories, less the last exactly when the last component looked up is a `.` and nothing else was looked up there; it fails as resolution does, or resolution was refused a search |
| PathWalk.UpIsParent | src/rcac_mcp/site.py:412-414 | popping the route for `..` gives the parent's ancestor chain |
| PathWalk.EveryoneMayIs | src/rcac_mcp/site.py:349-351 | owner, group and other each hold the bit, and there is no ACL entry |
| PathWalk.OpenIs | src/rcac_mcp/site.py:367-378 | whatever is bound anew between the two calls: a directory is gone into; what is none is followed if it is a link when it is read, one call later; else the walk stops with the first call's error |
| PathWalk.WalkTakesCalls | src/rcac_mcp/site.py:367-418 | every link followed takes calls of its own, so bindings may change between any two |
| PathWalk.OpenExactly | src/rcac_mcp/site.py:429-438 | the decision whether every account can reach and list the directory is resolution's, both ways |
| PathWalk.FlagExactly | src/rcac_mcp/site.py:381-426 | the flag is resolution's answer if and only if, where the last component looked up is a `.`, its directory was searched already, may be searched by all, or the flag is down anyway |
| PathWalk.DotLastIs | src/rcac_mcp/site.py:406-423 | the last component looked up is a `.` if the path closes in one, and only if the path or a link it follows does |
| PathWalk.NoClosingDot | src/rcac_mcp/site.py:381-426 | where neither does, the walk has searched exactly what resolution has |
| PathWalk.ClosingDot | src/rcac_mcp/site.py:408-411 | a path that closes in a `.`, in a directory nothing else was looked up in, leaves that one directory out |
| PathWalk.DotIsPassed | src/rcac_mcp/site.py:408-411 | a tree and a path for which the flag and resolution differ |
| ReadChecked.ReadForEveryone | src/rcac_mcp/site.py:441-486 | the read, file by file, gives the context its calls' answers make |
| ReadChecked.ServedWasChecked | src/rcac_mcp/site.py:441-486 | whatever names are bound anew between any two calls, every file served is the content of a regular file that grants read to all, bound, under a name that directory listed, in a directory that grants list to all, reached through directories that each grant search to all |
| ReadChecked.RouteWasSearched | src/rcac_mcp/site.py:400-423 | each directory of the route was bound in the one before it, and all but the last were checked |
| ReadChecked.NothingIsLeftOut | src/rcac_mcp/site.py:462-483 | a read that does not fail leaves out no eligible regular file its listing names: each it opened was readable to all and is served, under its name and with its content, unless blank |
| ReadChecked.FailedExactly | src/rcac_mcp/site.py:451-485 | a read is failed exactly when the walk, the open or the listing failed other than as not there, some account may not reach or list the directory, or an eligible entry could not be asked, opened or read, is a directory by then, or is not for every account |
| ReadChecked.StoppedRead | src/rcac_mcp/site.py:458-463 | a directory not there is missing, which is no failure; any other error in reaching, opening or listing it is a failed read in that error's words |
| ReadChecked.ClosedRead | src/rcac_mcp/site.py:458-459 | one that some account may not reach or list is a failed read, whatever it holds |
| ReadChecked.BadRead | src/rcac_mcp/site.py:464-483 | the first entry that ends the read is the one named, with its own words |
| Base64.RoundTrip | src/rcac_mcp/site.py:522-523 | decoding what is encoded gives the octets back |
| Base64.DecodesExactly | src/rcac_mcp/site.py:522-523 | decoding fails exactly on what is not groups of four letters, the last perhaps padded; three octets come of a group, less one a pad |
| Listing.ParseRemote | src/rcac_mcp/site.py:526-561 | the loop over the lines gives the context the lines make |
| Listing.AcceptedExactly | src/rcac_mcp/site.py:526-561 | whatever lines come, the read does not fail exactly when they say that the directory is missing, or count themselves and are each a file's in base64 or an unread one's whose name is not eligible |
| Listing.RefusedAs | src/rcac_mcp/site.py:538-560 | and a failed read says why: no count, incomplete; no number, malformed; else by its first bad line, the unread file named or malformed; else by its count |
| Listing.SplitLinesIs | src/rcac_mcp/site.py:531 | a text's lines hold no line end, and with their ends, a carriage return and line feed being one, they are the text |
| Listing.IntExactly | src/rcac_mcp/site.py:542 | a count is read of digits, single underscores between, perhaps signed, between spaces, and of nothing else |
| Listing.StrippedIs | src/rcac_mcp/site.py:542 | stripping takes off the spaces at both ends and all of them |
| Listing.AnswerIsRead | src/rcac_mcp/site.py:107-127 | what is printed of a directory is read back: absent, not a directory, unreadable, refused with the name of the first eligible file that could not be read, or its eligible files that are not blank in byte order |
| Listing.AnyOrder | src/rcac_mcp/site.py:526-561 | whatever order distinct names are listed in |
| Listing.CutShortFails | src/rcac_mcp/site.py:538-560 | every start of an answer short of more than its last newline is a failed read, never fewer files |
| Listing.DecimalCutShort | src/rcac_mcp/site.py:542-560 | a count cut short is a smaller one |

## Left out

- ReconnectTime.NothingAfterLastStart: stated on an ideal clock, where the threads' own steps take no time; on a real one a call can be late by as much as the machine delays it.
- ReconnectTurns.StillTrying: on an ideal clock likewise.
- StagedWrite.WholeOrNotAtAll: takes the storage to keep the checksum's text as it was sent (`StagedWrite.Keeps`); were both files altered alike, the check could not tell, in the source as here.
- StagedWrite.Remote.Write: an append or a write-through promises no atomicity in the source, and here none while it runs: only that unverified content changes nothing and that status 0 leaves all of it; the creation of the parent directory and the words of the errors (`_loops` naming a loop, `_reason`) are not part of it.
- Compose.EveryReadFits: at the default timeout only, as the reserve in the source is taken at it.
- Collect.ScheduleIndependent: the wire's code is taken to be none of the two interruption codes, and the streams to be framed; a deadline and a loss before both records are other results by design, which `Collect.EndsExactly` gives.
- Listing.IntExactly: `int` is modelled on ASCII digits; the counts that other scripts' digits write are not read.
- Words.ArgvRoundTrip: the tokenizer takes literally what the printed line can hold and refuses the rest of the shell's grammar; real bash, the program around the line and its traps are not modelled.
- Pipes.RunProcess: feeding stdin, signals to the process group and the closing of pipes are not modelled; what is read while the group is stopped is one read of each stream.
- ReadChecked.ServedWasChecked: an inode's kind, mode, ACL and content do not change during the read; only names do. Whether an inode carries an ACL entry is one bit: the platform's ways to ask (`_extended` and what it calls) are left out.
- Fabric, Paramiko and SFTP are not modelled: a connection is an identity with a liveness bit and a set of transports, a gateway's transports being its own, and an SFTP call is a step that works or fails.
- Interrupts that are not an `Exception`, and `SSHExecutor.close()`, are not part of the reconnect bookkeeping.
- The local read without the check for every account, `read_bounded` and its queue, and `read_remote`'s mapping of exit codes: short wrappers.
- Lone surrogates in names: text here is scalar values, and the raw octets carry the rest.
- Message texts of connect failures (`connect_failure_message`): formatting.
- The server, its tools, tokens and startup: wiring and thin parsing.
