# Verified models of rcpud's stateful cores

rcpud is a CPU daemon: it authenticates a client through factotum, hands the
connection to TLS, runs the client's script, serves a terminal, a display and a
directory of agents. This project models the parts where something can go wrong
between the lines, and proves what they promise for every input, every
interleaving and every behaviour of a peer.

| part | modules | form |
|---|---|---|
| agents of rcpud | OutputLog, GortnBuffer, GortnAgent, GortnReads, GortnRefinement, GortnStops, GortnWaking, GortnRequests, GortnCommands, GortnLocks, GortnManager, GortnRemoval, GortnRunLoops, GortnCalls | classes for the operations, step machines over goroutine positions for what interleaving does to them |
| tabs of l9term | OutputLog, AgentBuffer, TabAgent, TabCommands | a class, and a step machine |
| authentication | Wire, AuthInfo, AuthProxy, AuthReply, AuthHandoff, AuthComplete, AuthRefusal | classes over a fragmented connection, each method proved equal to a function of its surroundings; theorems about those functions |
| terminal output | AnsiStrip, PtyPipe | the regular expression as a language, a scanner, a loop |
| client script | ClientScript | a loop, and a function it equals |
| display protocol | Wire, WsysCodec, WsysServer, WsysSession | in-place encoding into arrays, the request loop, the client's view of a session |
| draw commands | DrawTable | a class over an image table |

Bytes holds the fixed-width integers, byte strings and character sets that the others share.

## What the proofs found

The main results hold as stated in the table below. Where the code does not do
what one would expect, a failing run or input is given and the exact condition
is proved.

- A read of an agent's output in rcpud looks its offset up under one lock and
  copies bytes under another. With one read at a time per fid every session is
  given the log without gap or repetition. Otherwise a read breaks its session
  exactly when its offset is no longer the recorded one
  (`StaleOffsetBreaksTheStream`), and two overlapping reads of one fid deliver the
  same bytes twice (`TwoReadsSameBytes`). The unsigned length difference never
  wraps either way.
- A read of rcpud can also be ended by the stop channel. That EOF is never the end of
  the log: whichever signal ends the read, the agent is not stopped and its log can
  go on (`InterruptedEofIsIncomplete`). The agent behaves like an atomic log if and
  only if the stop channel ends no read (`SplitReadsRefineAtomicReads`); the command
  `stop` already can end one (`StopTakenByReader`). l9term has no such exit, and there
  an end of file is always complete.
- The ctl command `stop` of rcpud never stops the agent it is sent to, in any run
  (`StoppedOnlyFromOutside`): the run loop executes it and so is not waiting for the
  signal. Only a Remove by another goroutine can, and it has one chance: it delists
  the agent in the section that signals it, so unless the run loop takes that signal
  the agent runs for ever, off the table (`WhatRemoveAchieves`). The signal is certain
  to get there only when the run loop waits and no reader and no stdin goroutine
  does (`SignalMustArrive`). In the program Remove is only called by run loops on
  their way out.
- That deferred Remove works by id. It never finds its own agent
  (`DeferredRemoveFindsNothing`, `DeferredRemove`), but if the id was spawned again it
  signals and delists the newer agent.
- The stdin goroutine of an exec is not ended by the end of its command, only by
  receiving a stop signal. So an agent has one for every exec it was ever given, and each
  of them can take the signal that was meant for the run loop (`PumpsOutliveCommands`).
- The wake channel keeps one token. Exactly two things lose a wake-up in l9term
  (`AwakeIffSafe`): one reader takes the token that another one needs
  (`TwoReadersOneToken`), or the fid of a waiting reader is clunked, which puts that
  reader back to offset zero (`ClunkedReaderSleeps`). The timer then helps
  (`RetryDelivers`). In rcpud a fid that is opened anew, or a stale offset, can do it
  as well; for a single careful reader nothing can.
- Stripping each read of the terminal by itself equals stripping the stream if and
  only if no read ends inside an escape sequence (`ChunkedStripping`). A cut sequence
  is let through whole. Stripping twice equals stripping once if and only if no
  sequence is put together across a removed one (`StripTwice`).
- `convM2AI` has no failing case: a truncated answer decodes to empty fields, so an
  AuthInfo is handed out for any `authinfo` answer that says ok. A field that claims
  more bytes than follow is skipped by its length alone, and the fields after it are
  read out of its contents (`ShortFieldShifts`).
- The request loop of the display reads a header with a single Read into a buffer
  that still holds the header before it. What a cut header leads to is decided by
  the length that results (`HeaderDecides`): a short first frame ends the session
  (`CutHeaderDropsTheSession`), a later one makes the loop execute a request that
  was never sent (`SecondHeaderCut`), and by coincidence nothing may show
  (`CutCanGoUnnoticed`). Buttons of a bounce message are never decoded
  (`BouncesAreZero`).
- A draw batch may be cut in two writes, whatever follows, if and only if the first
  ends between records (`CutBetweenRecords`). An unknown command loses everything
  after it, and its write is still reported as complete.
- A script line of the unquoted form binds its key to its value only if both are
  free of spaces at the ends and the value is free of quotes there (`BareLineBinds`).
  The property test at cmd/rcpud/rcpud_test.go:836-867 claims it for all values.

## Model

| member | source | states |
|---|---|---|
| OutputLog.PeekIsExact | cmd/rcpud/gortns.go:179-191 | for an offset within the log the unsigned difference is the true one, the slice is in range, and the outcome (bytes, end of file, wait) is the right one |
| OutputLog.WrapsBeyondTheEnd | cmd/rcpud/gortns.go:179-191 | one byte past the log the difference would wrap and the slice be out of range, so the range invariant is needed |
| AgentBuffer.AgentBuf.constructor | cmd/l9term/main.go:44-49 | a new log is empty and open and has no readers |
| AgentBuffer.AgentBuf.Write | cmd/l9term/main.go:51-59 | appends and leaves a wake token; offsets and closed flag stay |
| AgentBuffer.AgentBuf.Close | cmd/l9term/main.go:61-69 | closes and leaves a wake token; bytes and offsets stay |
| AgentBuffer.AgentBuf.OpenRead | cmd/l9term/main.go:71-75 | a fid starts at the present end of the log |
| AgentBuffer.AgentBuf.CloseRead | cmd/l9term/main.go:77-81 | forgets one fid only |
| AgentBuffer.AgentBuf.TryRead | cmd/l9term/main.go:83-116 | one turn of Read is the atomic read of the log, keeps offsets in range and never slices out of bounds |
| TabAgent.RunKeepsInv | cmd/l9term/main.go:51-228 | every interleaving of run loop, exec copiers, readers, opens and clunks keeps sessions, offsets and control structure consistent |
| TabAgent.LogIsWhatWasWritten | cmd/l9term/main.go:147-228 | the log of every run is the row of lines and output pieces that its steps are there to write, each given literally, in the order of their critical sections |
| TabAgent.SessionsReadTheLog | cmd/l9term/main.go:71-116 | in every reachable state an open fid has been given exactly the log from its open offset to its current one, with any number of concurrent reads; a closed log ends with the stopped line |
| TabAgent.ClosedLogIsFinal | cmd/l9term/main.go:147-228 | once closed, the log never grows again: the exec copiers are joined and the last line is written before Close |
| TabAgent.EofIsComplete | cmd/l9term/main.go:98-105 | a read that returns EOF in an open session completes the final log, for every continuation of the run |
| TabAgent.AwakeIffSafe | cmd/l9term/main.go:51-116 | for any number of readers: a step keeps the wake-up guarantee (no reader is parked behind the log or on a closed log without a token or a send about to come) if and only if it does not take the token from another reader that needs it and does not clunk the fid of a waiting reader with nothing left to wake it |
| TabAgent.WakeUpsAreKept | cmd/l9term/main.go:51-116 | over whole runs: no wake-up is ever lost if and only if every step is one of those when it is taken |
| TabAgent.NoLostWakeUp | cmd/l9term/main.go:51-69 | with one reader, whose fid is not clunked while it waits, and any writers: throughout the run a reader parked behind the log or a closed log has a token waiting or a writer about to send one |
| TabAgent.RetryDelivers | cmd/l9term/main.go:107-114 | whoever wakes a waiting reader, timer or token, its next look returns the next min(count, available) bytes after its offset, or EOF on a closed log, or parks it as it was; the timer is always possible, also for a fid that was clunked |
| TabCommands.RequestKept | cmd/l9term/main.go:83-116 | no step of anybody changes the fid or the count of a read in flight |
| TabCommands.ReadsAreAsAsked | cmd/l9term/main.go:83-116 | in every run every read in flight has the fid and the count that its goroutine asked for when it called |
| TabCommands.StopClosesTheLog | cmd/l9term/main.go:147-173 | over every run: the run loop is on its way out if and only if it received stop, the log is closed if and only if the loop closed it, and until then the next step of the loop is possible and leads there |
| TabCommands.StopRuns | cmd/l9term/main.go:154-158 | the command stop from its receipt to the end: the log gains the stopped line, is closed, and a token is left |
| TabCommands.ClosedReadIsEof | cmd/l9term/main.go:98-101 | on a closed log a read that is at the end returns EOF |
| TabCommands.LineRuns | cmd/l9term/main.go:147-164 | banner, echo and unknown commands each log their line, leave a token and bring the loop back to its select |
| TabCommands.ExecRuns | cmd/l9term/main.go:175-228 | the command exec from its receipt to the end, for any output on its two pipes: the log gains the command line and exactly that output, and the loop is at its select again |
| TabAgent.TwoReadersOneToken | cmd/l9term/main.go:83-116 | a run with two readers in which one waits behind the log without a token |
| TabAgent.ClunkedReaderSleeps | cmd/l9term/main.go:77-116 | a run with a single reader in which its fid is clunked while it waits, and it waits behind the whole log without a token |
| GortnBuffer.Gortn.constructor | cmd/rcpud/gortns.go:118-130 | a new agent is idle with an empty open log |
| GortnBuffer.Gortn.SetState | cmd/rcpud/gortns.go:132-137 | changes state and detail and nothing else |
| GortnBuffer.Gortn.WriteOut | cmd/rcpud/gortns.go:146-155 | appends and leaves a wake token |
| GortnBuffer.Gortn.OpenReader | cmd/rcpud/gortns.go:158-162 | a fid starts at the beginning of the log |
| GortnBuffer.Gortn.CloseReader | cmd/rcpud/gortns.go:165-169 | forgets one fid only |
| GortnBuffer.Gortn.TryRead | cmd/rcpud/gortns.go:173-213 | undisturbed, one turn of readOut is the atomic read of l9term's buffer |
| GortnBuffer.Gortn.StopRun | cmd/rcpud/gortns.go:225-239 | on the stop signal the agent is stopped and closed, with the stopped line appended once |
| GortnBuffer.Gortn.StopAgent | cmd/rcpud/gortns.go:346-351 | offers one signal and changes nothing else |
| GortnAgent.RunKeepsInv | cmd/rcpud/gortns.go:132-351 | every interleaving of the split-lock goroutines keeps the agent's invariants |
| GortnAgent.OffsetsNeverWrap | cmd/rcpud/gortns.go:173-193 | in every interleaving, however many reads of one fid are in flight, every recorded and fetched offset stays within the log, so the unsigned difference is the true one |
| GortnReads.SplitReadsGiveTheLog | cmd/rcpud/gortns.go:158-213 | with at most one outstanding read per fid and no reopening or clunk during it, every open session has been given exactly the log up to its recorded offset |
| GortnReads.RecordIsAtomicRead | cmd/rcpud/gortns.go:181-193 | a read that delivers bytes equals, in bytes and in the log it leaves, an atomic read at the moment it records its offset |
| GortnReads.EmptyCheckIsAtomicRead | cmd/rcpud/gortns.go:179-200 | a check that finds nothing ends or waits exactly when the atomic read does |
| GortnReads.StaleOffsetBreaksTheStream | cmd/rcpud/gortns.go:175-193 | without that care: recording keeps its session complete if and only if the fetched offset is still the recorded one |
| GortnReads.TwoReadsSameBytes | cmd/rcpud/gortns.go:175-193 | from every state with bytes to come, two reads of one fid that both fetch first deliver the same non-empty bytes twice |
| GortnReads.StoppedIsFinal | cmd/rcpud/gortns.go:225-240 | once closed, neither the log nor the stopped state ever changes |
| GortnReads.ClosedExactlyWhenStopped | cmd/rcpud/gortns.go:225-240 | in every reachable state the log is closed exactly when the agent is stopped, and then ends with the stopped line |
| GortnReads.ClosedEofIsComplete | cmd/rcpud/gortns.go:196-199 | an EOF that comes from the closed flag completes the final log |
| GortnStops.StoppedOnlyFromOutside | cmd/rcpud/gortns.go:215-272 | over every run: the agent is stopped, or about to be, if and only if another caller of Remove got its signal through to the run loop; executing the command stop, however often and whoever receives what it sends, never stops it |
| GortnStops.DeferredRemoveFindsNothing | cmd/rcpud/gortns.go:69-83 | in every run the deferred Remove never signals its own agent, which was delisted in the section that signalled it |
| GortnStops.SignalMustArrive | cmd/rcpud/gortns.go:346-351 | the signal of a Remove is certain to reach the run loop of a listed agent if and only if that is at its select and neither a reader nor a stdin goroutine is at its own |
| GortnStops.WhatRemoveAchieves | cmd/rcpud/gortns.go:69-83 | for every reachable state, receiver and continuation: the agent is stopped or about to be if and only if its run loop received the signal of that Remove; otherwise it is off the table and its log is never closed |
| GortnStops.SignalToTheRunStops | cmd/rcpud/gortns.go:224-240 | once the run loop has the signal, in every continuation the log is unchanged until the stop section and has gained the stopped line and nothing else after it |
| GortnStops.OpenLogGrows | cmd/rcpud/gortns.go:215-344 | whatever every goroutine is doing, an open log with room can still grow |
| GortnStops.InterruptedEofIsIncomplete | cmd/rcpud/gortns.go:203-210 | in every reachable state with room, a read that any stop signal ends is on an open log that grows in some continuation; the session of a careful client then misses part of it |
| GortnStops.StopTakenByReader | cmd/rcpud/gortns.go:203-210 | from every state with the run loop at its select and a waiting reader, the command stop can end that read with EOF and do nothing else, with the log open and able to grow |
| GortnRefinement.SplitReadsRefineAtomicReads | cmd/rcpud/gortns.go:146-213 | every return of every read being an event: with careful clients the events are a run of the atomic log if and only if the stop channel ends no read, and they always make the log that the run ends with |
| GortnRequests.RequestKept | cmd/rcpud/gortns.go:173-213 | no step of anybody changes the fid or the count of a read in flight |
| GortnRequests.ReadsAreAsAsked | cmd/rcpud/gortns.go:173-213 | in every run what a read returns, and how it is interrupted, is reported for the fid and the count of its own call |
| GortnRequests.RetryDelivers | cmd/rcpud/gortns.go:173-213 | a reader woken by timer or token alike and left alone returns the next min(count, available) bytes and records that |
| GortnRequests.RetryEnds | cmd/rcpud/gortns.go:196-210 | with nothing to come it returns EOF if the log is closed and otherwise parks as it was |
| GortnRequests.LogIsWhatWasWritten | cmd/rcpud/gortns.go:146-155 | the log of every run is the row of lines and output pieces that its steps are there to write, each given literally, in order |
| GortnCommands.StartRuns | cmd/rcpud/gortns.go:215-218 | a new agent comes to its select, running, with its banner as its log |
| GortnCommands.LineRuns | cmd/rcpud/gortns.go:278-289 | the commands that report one line log it, leave a token and bring the loop back to its select |
| GortnCommands.ExecRuns | cmd/rcpud/gortns.go:291-344 | the command exec from its receipt to the end, for any output: the log gains the command line and exactly that output, the agent is idle, and one more stdin goroutine is left waiting |
| GortnCommands.StopRuns | cmd/rcpud/gortns.go:224-240 | a Remove whose signal the loop takes: stopped, closed with the stopped line, off the table, ended |
| GortnCommands.PumpsOutliveCommands | cmd/rcpud/gortns.go:299-309 | in every run there are as many stdin goroutines as exec commands so far, less those that received a stop signal |
| GortnWaking.AwakeIffSafe | cmd/rcpud/gortns.go:146-213 | for any clients: a step keeps the wake-up guarantee if and only if it does not take the token from another reader that needs it, set the offset of a waited-on fid back, or park on an offset that is no longer the recorded one, with nothing left to wake the reader |
| GortnWaking.WakeUpsAreKept | cmd/rcpud/gortns.go:146-213 | over whole runs: no wake-up is ever lost if and only if every step is one of those when it is taken |
| GortnWaking.NoLostWakeUp | cmd/rcpud/gortns.go:146-213 | with one careful reader and any writers, a reader parked behind the log or a closed log always has a token waiting or a writer about to send one |
| GortnWaking.ReopenedReaderSleeps | cmd/rcpud/gortns.go:158-213 | opening a fid between the two halves of a read parks the reader behind the whole log without a token |
| GortnWaking.ReopenedReaderHappens | cmd/rcpud/gortns.go:158-213 | a run from the start, with a single reader, in which that happens |
| GortnLocks.EdgeBalances | cmd/rcpud/gortns.go:44-242 | along every control-flow edge the locks a goroutine holds change exactly by what that edge takes and gives back; nothing is taken twice |
| GortnLocks.LockOrder | cmd/rcpud/gortns.go:173-213 | nothing is held at a place that waits for a channel, a process or a pipe; the only nesting is readersMu inside g.mu of the same agent |
| GortnLocks.RunKeepsInv | cmd/rcpud/gortns.go:44-242 | in every run the lock table and the goroutines agree on who holds what, and table and directory differ only inside gm.mu |
| GortnLocks.HolderCanStep | cmd/rcpud/gortns.go:132-242 | while any of the three kinds of locks is held, some holder has an enabled step |
| GortnLocks.HolderStepsAreBounded | cmd/rcpud/gortns.go:44-242 | holders cannot run for ever inside their critical sections, whatever branches they take |
| GortnLocks.LocksComeFree | cmd/rcpud/gortns.go:44-242 | from every reachable state the holders alone can run until no lock is held |
| GortnLocks.LockSafety | cmd/rcpud/gortns.go:44-480 | over whole runs from the start: who waits outside owns no lock, the only nesting, no deadlock, and the owners alone can release everything |
| GortnLocks.DirectoryAgreement | cmd/rcpud/gortns.go:44-83 | in every reachable state with gm.mu free, agents and children of /gortns agree apart from the name ctl; with no agent of that name the directory is exactly the agents and ctl |
| GortnLocks.GeneratedIdsAreNamed | cmd/rcpud/gortns.go:278-279 | the ids that spawn generates are never ctl |
| GortnManager.Manager.constructor | cmd/rcpud/gortns.go:29-40 | a new manager has no agents, and a directory with the control file |
| GortnManager.Manager.Spawn | cmd/rcpud/gortns.go:44-66 | succeeds exactly for a new id; then one fresh idle agent and one directory entry are added and nothing else changes; otherwise nothing changes |
| GortnManager.Manager.Remove | cmd/rcpud/gortns.go:69-83 | succeeds exactly for a known id; then that agent, and no other, is offered one stop signal and both entries go; otherwise nothing changes |
| GortnManager.RemoveUndoesSpawn | cmd/rcpud/gortns.go:44-83 | Remove restores what Spawn found, if and only if the directory had no entry of that name |
| GortnManager.SerialHistory | cmd/rcpud/gortns.go:44-83 | every interleaved run amounts to a row of successful Spawn and Remove calls: the table is always what they make it, and so is the directory whenever gm.mu is free |
| GortnRemoval.DeferredRemove | cmd/rcpud/gortns.go:69-83 | in every run, when a deferred Remove looks its agent's id up the agent itself is off the table; it finds an agent, a different one of the same id, if and only if the id was spawned again since it was last removed |
| GortnRunLoops.EveryAgentRuns | cmd/rcpud/gortns.go:44-83 | in every run each agent of the table has exactly one run loop, or is about to be given it by the Spawn that is listing it; no agent ever has two |
| GortnCalls.SpawnDecides | cmd/rcpud/gortns.go:48-52 | in Spawn, an id of the table is refused and any other is listed for a new agent, whatever else is going on |
| GortnCalls.SpawnCompletes | cmd/rcpud/gortns.go:44-66 | Spawn of a free id from lock to unlock: table and directory gain it and a goroutine is started at the beginning of the run loop; locks and all else are as before |
| GortnCalls.SpawnCommand | cmd/rcpud/gortns.go:278-285 | the command spawn from its receipt until the loop is at its select again |
| GortnCalls.RemoveDecides | cmd/rcpud/gortns.go:73-76 | in Remove, an id that is not in the table is refused, and the agent of any other is signalled |
| GortnCalls.RemoveCompletes | cmd/rcpud/gortns.go:69-83 | Remove of a known id from lock to unlock: table and directory lose it and the loop that takes the signal is on its way to the stop section; all else is as before |
| GortnCalls.RunLoopStarts | cmd/rcpud/gortns.go:215-218 | the places a started run loop goes through until its select: state, banner, wake |
| GortnCalls.ExecCommand | cmd/rcpud/gortns.go:291-293 | the places exec goes through until it waits for the process: state, command line, wake |
| GortnCalls.BytesFound | cmd/rcpud/gortns.go:179-193 | a check that finds bytes takes g.mu, then readersMu inside it, and gives back both |
| Wire.ReadAllIsPrefix | cmd/rcpud/authproxy.go:231-234 | reading k bytes takes the first k of the stream, however it arrives in pieces, and fails exactly when there are fewer |
| Wire.Conn.ReadFull | cmd/rcpud/authproxy.go:231-234 | fills exactly the slice with the next bytes of the stream or fails with the stream used up; bytes before the slice stay |
| AuthInfo.AuthInfoRoundTrip | cmd/rcpud/authproxy.go:140-177 | decoding recovers all four fields from their length-prefixed encoding followed by anything |
| AuthInfo.GetField | cmd/rcpud/authproxy.go:155-177 | total: a field decoder returns a suffix of its input and a field under 65536 bytes |
| AuthInfo.DecodedIsTheRecord | cmd/rcpud/authproxy.go:140-149 | on arbitrary bytes the answer is the record in the buffer exactly when the buffer starts with one |
| AuthInfo.TruncatedStillDecodes | cmd/rcpud/authproxy.go:140-165 | an answer of fewer than two bytes is decoded, to empty fields |
| AuthInfo.ShortFieldShifts | cmd/rcpud/authproxy.go:155-177 | a field that claims more bytes than follow decodes as empty, and its contents are read as the next fields |
| AuthProxy.Ask | cmd/rcpud/authproxy.go:82-126 | an exchange that does not fail used up an answer and passed the size check |
| AuthReply.RpcMeaning | cmd/rcpud/authproxy.go:86-125 | an exchange has a given result and payload if and only if the answer is that result's word alone, or the word, one space and the payload, whatever bytes the payload holds |
| AuthReply.CountRoundTrip | cmd/rcpud/authproxy.go:216-218 | a count printed in decimal, with any Unicode spaces around it, is read back if and only if it fits a signed 64-bit integer |
| AuthReply.AtoiMeaning | cmd/rcpud/authproxy.go:216-221 | a count is accepted, for what it stands for, exactly if it is digits with at most one sign before them and fits a signed 64-bit integer |
| AuthReply.BlankMeaning | cmd/rcpud/authproxy.go:216 | what is trimmed around it is exactly the UTF-8 forms of the white-space code points |
| AuthProxy.AuthRpc.Rpc | cmd/rcpud/authproxy.go:82-126 | one exchange with factotum: result, remaining answers and transcript |
| AuthProxy.AuthRpc.FetchInfo | cmd/rcpud/authproxy.go:128-138 | keeps the decoded answer if and only if factotum said ok |
| AuthProxy.AuthRpc.RunPhase | cmd/rcpud/authproxy.go:202-238 | the phase loop over a real buffer and a fragmented connection equals the phase over the plain stream; every slice is in bounds and it ends |
| AuthProxy.AuthRpc.FauthProxy | cmd/rcpud/authproxy.go:180-243 | the whole conversation depends on the stream and factotum's answers only, never on the fragmentation |
| AuthHandoff.ByteExact | cmd/rcpud/authproxy.go:180-243 | whatever factotum does, on success the wire has lost exactly the payloads it accepted and gained exactly the payloads it gave, in order; on failure the accepted payloads are still the first bytes taken, and at most one buffer of 4096 bytes is lost after them |
| AuthHandoff.ConversationIsLegal | cmd/rcpud/authproxy.go:180-243 | every transcript follows the protocol up to its first failing exchange; an AuthInfo comes out exactly on the complete path and is the decoding of the last answer |
| AuthHandoff.PhaseGrows | cmd/rcpud/authproxy.go:202-238 | against any peer a phase makes at most 4097 writes, strictly growing and each exactly the bytes read so far; an accepted one has at most 4090 bytes |
| AuthComplete.ProperConversationIsGranted | cmd/rcpud/authproxy.go:180-243 | completeness: ok to start, any rounds of payloads for the client and of phases with rising needs up to 4090 bytes, then done and an ok info, with enough stream and writes, end granted with exactly that info, exactly the payloads sent and exactly the bytes asked for taken |
| AuthComplete.RequestFits | cmd/rcpud/authproxy.go:82-85 | a request is sent if and only if verb, space and argument have at most 4096 bytes, with the longest argument of each verb |
| AuthComplete.BigRequestIsNotSent | cmd/rcpud/authproxy.go:82-85 | a request that is too long fails and uses no answer |
| AuthComplete.RequestText | cmd/rcpud/authproxy.go:86 | what is written to factotum for each verb, literally |
| AuthRefusal.RefusedForCause | cmd/rcpud/authproxy.go:180-243 | for every conversation with any peer: it is refused for a reason if and only if that is what its last exchange shows (refused start, no write left, no such number, too large, not more than is held, stream used up, and so on), and granted if and only if that was an ok answer for the info |
| AuthHandoff.ReadChoice | cmd/rcpud/main.go:408-418 | succeeds exactly when a NUL comes, and takes the bytes up to and including the first one |
| AuthHandoff.Negotiate | cmd/rcpud/main.go:406-421 | sends the literal offer and, after a choice, the literal confirmation, as far as writes succeed, and takes nothing past the NUL |
| AuthHandoff.Handshake | cmd/rcpud/main.go:195-208 | negotiation and authentication together, with the literal start parameters: on success exactly choice, NUL and accepted payloads are gone, so the next byte is the first for TLS; what was sent is offer and confirmation, as far as writes succeed, and the emitted payloads |
| AnsiStrip.EscapeMeaning | cmd/rcpud/main.go:41 | the pattern, as a regular expression, is exactly three shapes: CSI, OSC and short sequences |
| AnsiStrip.ScanFindsTheMatch | cmd/rcpud/main.go:41 | at every position at most one length matches any alternative, and the single-pass scanner returns it |
| AnsiStrip.PrefixFree | cmd/rcpud/main.go:41 | no escape sequence is a proper prefix of another |
| AnsiStrip.NothingStartsInside | cmd/rcpud/main.go:41 | no sequence begins inside another |
| AnsiStrip.OccurrencesDisjoint | cmd/rcpud/main.go:41 | two occurrences in a stream coincide or do not overlap, so match priority decides nothing |
| AnsiStrip.StripIsReplaceAll | cmd/rcpud/main.go:532 | the scanner removes exactly what leftmost regular-expression replacement removes |
| AnsiStrip.MatchesExist | cmd/rcpud/main.go:532 | every stream has such a list of leftmost matches |
| PtyPipe.PipePtyToCons | cmd/rcpud/main.go:522-537 | what reaches the console is the reads stripped one by one; the stripped stream when no read ends inside a sequence; one write per read that has bytes |
| PtyPipe.ChunkedStripping | cmd/rcpud/main.go:522-537 | for every list of reads: stripping read by read equals stripping the stream if and only if no boundary falls inside an escape sequence; it never removes more |
| PtyPipe.SplitLeaksTheSequence | cmd/rcpud/main.go:530-534 | a boundary inside a sequence lets exactly that sequence through and changes nothing else |
| PtyPipe.StripUndoesDecoration | cmd/rcpud/main.go:530-534 | stripping any document of text runs and whole sequences gives exactly its text |
| PtyPipe.UnchangedIffPlain | cmd/rcpud/main.go:530-534 | a stream stays as it is exactly when it holds no sequence |
| PtyPipe.StripTwice | cmd/rcpud/main.go:530-534 | stripping twice equals stripping once if and only if no escape sequence of what is left spans a place where a match was removed |
| PtyPipe.OnePassIsEnough | cmd/rcpud/main.go:530-534 | that is so for every stream with no ESC outside its sequences |
| PtyPipe.StripNotIdempotent | cmd/rcpud/main.go:530-534 | an input on which stripping twice differs from stripping once |
| ClientScript.ParseScript | cmd/rcpud/main.go:167-176 | the loop fills the map that reading the lines in order defines; ScriptRoundTrip and the Binds lemmas say what that is |
| ClientScript.QuotedLineBinds | cmd/rcpud/main.go:170-173 | a line key='value' binds exactly that pair if and only if the key is trimmed and the value has no quote at an end |
| ClientScript.BareLineBinds | cmd/rcpud/main.go:170-173 | a line key=value does if and only if, besides, the value has no space at an end |
| ClientScript.DroppedAtTheEnds | cmd/rcpud/main.go:170-173 | what is dropped at the ends of keys and values is exactly the white-space code points and the two quotes |
| ClientScript.ScriptReads | cmd/rcpud/main.go:167-176 | any script of binding lines, with any space around key and value and any quotes around the value, and of other lines, with its last line ended or not, reads as its bindings, the last one of a key winning |
| ClientScript.ScriptRoundTrip | cmd/rcpud/main.go:167-176 | every script of quoted bindings, with a final newline or without, reads back as its last-binding-wins map |
| WsysCodec.StrRoundTrip | drawsrv.go:157-166 | a string written at any place reads back, with the position after it, if and only if it has under 65536 bytes |
| WsysCodec.SizeIsLength | drawsrv.go:168-195 | the announced size is the encoded length, for every type |
| WsysCodec.PStr | drawsrv.go:157-160 | writes its length-prefixed form in place and touches nothing else |
| WsysCodec.Wenc | drawsrv.go:179-195 | writes the encoding in place, exactly size(m) bytes, inside its buffer, and touches nothing else |
| WsysCodec.ReplyRoundTrip | drawsrv.go:168-195 | a reply decodes to the fields its type carries if and only if an error label is under 65536 bytes |
| WsysCodec.ReplyStreamRoundTrip | drawsrv.go:354-358 | from the concatenated frames a reader recovers every reply, in order |
| WsysCodec.DecodeRequest | drawsrv.go:197-212 | decoding fails exactly below two bytes and otherwise stays within the frame |
| WsysCodec.Wdec | drawsrv.go:197-212 | filling a record in place never indexes past the frame and equals the decoding function |
| WsysCodec.InitRoundTrip | drawsrv.go:201-204 | decoding a Tinit inverts the encoding of its two strings, whatever follows |
| WsysCodec.MoveRoundTrip | drawsrv.go:206-207 | decoding a Tmoveto inverts the signed big-endian coordinates |
| WsysCodec.TruncatedStr | drawsrv.go:161-166 | a string that claims more bytes than the frame has is what is there of it |
| WsysCodec.OtherRequests | drawsrv.go:197-212 | a screen request brings its count; a request without fields, or too short for them, its type and tag only |
| WsysServer.ReadBody | drawsrv.go:321-325 | the body loop fills the buffer with exactly the next n bytes of the stream, for every fragmentation, or fails |
| WsysServer.SendReply | drawsrv.go:354-358 | one write of one frame |
| WsysServer.HandleDraw | drawsrv.go:314-360 | the loop ends on every finite input, writes the frame of one reply per request and moves the pointer as asked, in order |
| WsysSession.RequestsAreFramed | drawsrv.go:317-327 | when headers arrive whole the loop gets exactly the client's requests, in order, for every fragmentation of the bodies |
| WsysSession.ReplyAnswers | drawsrv.go:328-353 | a reply has the request's tag, type T+1 for the six handled types and Rerror otherwise, carries the pixels of the moment, and is within what the encoding can carry |
| WsysSession.SessionIsAnswered | drawsrv.go:314-360 | the client reads back one reply per request, in order: tag, type, pixels, and the text of an error are the literal ones for that request, and nothing else is set |
| WsysSession.PointerFollows | drawsrv.go:314-349 | a client that sends moves has the pointer device follow exactly those coordinates, in order, for every fragmentation of the bodies |
| WsysSession.PointerIsDriven | drawsrv.go:328-353 | for requests of any types: one move per Tmoveto, to the signed big-endian coordinates of its bytes or to the corner when it is too short for them, all buttons released per Tbouncemouse, nothing for any other request or without a pointer |
| WsysSession.HeaderDecides | drawsrv.go:317-327 | for every cut of every header: a request comes out if and only if the length spelt by the bytes read and the stale ones after them is from 2 to 0x10000000 and so many bytes are to come, and it is decoded from those bytes |
| WsysSession.CutHeaderDropsTheSession | drawsrv.go:317-320 | a first header cut after one to three bytes ends the session without a reply if and only if those bytes followed by zeros are no such length; zero bytes never are |
| WsysSession.StaleHeaderMisreads | drawsrv.go:317-327 | a later header cut where it agrees with the one before is read with that one's length, and a request starting with the rest of the header is executed |
| WsysSession.SecondHeaderCut | drawsrv.go:314-360 | a two-request session in which the first is answered and then a request that was never sent, its type a byte of the header |
| WsysSession.CutCanGoUnnoticed | drawsrv.go:317-327 | a cut header with which the loop still gets the same requests: whole headers suffice but are not necessary |
| WsysSession.BouncesAreZero | drawsrv.go:197-212 | a bounce message always sets all buttons to zero |
| DrawTable.DrawSrv.constructor | cmd/o9draw/main.go:45-60 | there is one image, number 0, blank, from the origin to width and height when these are not negative, and the table is good |
| DrawTable.MakeRect | cmd/o9draw/main.go:188-195 | a rectangle is ordered, and its sides are the given x and y coordinates, whichever corners are given |
| DrawTable.DrawSrv.Write | cmd/o9draw/main.go:132-163 | ends on all inputs, keeps the table good, has the effect of the interpreter and reports the full length |
| DrawTable.BatchSemantics | cmd/o9draw/main.go:132-163 | one write of a batch, one write per record and the fold of the record meanings give the same table |
| DrawTable.EveryWriteIsABatch | cmd/o9draw/main.go:136-160 | any bytes whatever are whole records followed by bytes without effect |
| DrawTable.WriteMeaning | cmd/o9draw/main.go:132-176 | a write does what its records ask for, whatever ineffective bytes follow them |
| DrawTable.AllocMeaning | cmd/o9draw/main.go:140-144 | after a b record its image is there, blank, with the bounds its corners span, and every other image is as it was |
| DrawTable.DrawMeaning | cmd/o9draw/main.go:165-176 | after a d record the destination has the source drawn over the rectangle from its point on, through the mask from its own point on if there is one; bounds and all other images are as they were; with source or destination missing nothing changes |
| DrawTable.RecordLayout | cmd/o9draw/main.go:140-157 | both records byte by byte: little-endian words and signed coordinates at their offsets |
| DrawTable.CutBetweenRecords | cmd/o9draw/main.go:136-160 | two writes do what their concatenation does, whatever the second one is, if and only if the first ends between records |
| DrawTable.WritesCompose | cmd/o9draw/main.go:136-160 | what a batch means when it goes on: alone after whole records, lost after an unknown command, completing or swallowed by a record that was cut short |
| DrawTable.InterpretKeepsGood | cmd/o9draw/main.go:132-176 | from a good table every run keeps image 0, ids equal to keys and ordered rectangles, and no image disappears |

## Left out

- WsysSession.RequestsAreFramed: one direction only; the converse is false (CutCanGoUnnoticed). What each single cut header does is HeaderDecides.
- ClientScript.ParseScript: the script is a sequence of decoded characters; invalid UTF-8 is not part of this model.
- GortnManager.Manager.Remove: who receives the stop signal is not decided there; GortnStops says who can and what follows.
- GortnStops.StoppedOnlyFromOutside: another caller of Remove may come at any time, once while the agent is listed; who that is, and how ids are chosen, is GortnLocks and GortnRemoval.
- GortnRemoval.DeferredRemove: in GortnLocks a signal may be dropped even when the run loop waits, since readers and stdin goroutines may take it; GortnStops has the exact receivers.
- The text of error messages and log lines; error values are named cases.
- An io.Reader that returns bytes together with an error, or no bytes and no error; partial writes to a connection. A connection accepts a fixed number of whole writes.
- OpenSSL, the TLS upgrade itself and readClientEnv, whose buffered reader may read ahead of the script: the handoff ends where TLS begins.
- A missing secret versus an empty one in AuthInfo.
- Real time: the 30-second timer is a step that is always possible. Shell processes: exec is any sequence of writes by its copiers, then the join.
- The splitting of a ctl line into verb and argument: the run loop may receive any of the commands, or an unknown one.
- The state and status fields of l9term's Agent, which no one waits for.
- Bytes sent to an agent's `in` file, rcpud's status details, and the thoughts and command texts except as payloads of writes.
- Internal locks of go9p, and the files inside an agent's own directory: AddChild and DeleteChild are set operations on /gortns.
- Uniqueness of ids by time stamps: Spawn may be asked for any id.
- Pixel blending, allocation failure for huge rectangles, the refresh and event loop of o9draw: drawing is a function of destination, source, mask and rectangles that keeps the bounds.
- Framebuffer, uinput, pty and SDL devices; FUSE mounting; the 9P proxy; keyboard scancodes; the duplicate of drawsrv.go under cmd/drawsrv.
