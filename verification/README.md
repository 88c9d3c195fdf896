# Verified model of scannerl-go

A Dafny model of the distributed fingerprinting scanner: the coordinator that shards a target
list over workers and merges their results, the probe engine each worker runs, and the path
between the two. `dafny verify dfyconfig.toml` checks all of it.

| file | models |
|---|---|
| Types.dfy, Counting.dfy | targets, results, records; counting and summing |
| PendingKey.dfy | the `host:port` key and the map filed under it |
| Shard.dfy | shuffling and the even contiguous split |
| Convert.dfy, Targets.dfy | wire forms with int32 ports; the worker's `StreamTargets` |
| FpModule.dfy, Banner.dfy | the module contract, `httpBanner` and `tcpBanner`, and what they return |
| Dial.dfy | connect retries with 64-bit backoff, privileged-port retries |
| Conn.dfy, Exchange.dfy, Probe.dfy | a live connection, one Continue round, the probe loop |
| Watch.dfy | an automaton that reads a probe's history and rejects any breach of discipline |
| Turns.dfy | what one turn of a probe does: dialing again, what a call is told, how it ends |
| Sink.dfy | the bounded fan-out queue, as steps and as a class |
| Pool.dfy | the engine's goroutine pool and the sink it feeds |
| Coordinator.dfy | the coordinator, as functions on its state and as a class |
| Protocol.dfy, Safety.dfy | the whole distributed run as interleaved steps, and the invariant they keep |
| Delivery.dfy, Shutdown.dfy, Progress.dfy | what a run delivers, when it may lose a target, and what it can always get done |
| EndToEnd.dfy | the join with the engine |

Code that updates fields or loops is a class or a method proved against a function on values;
what the code promises is proved about that function. Goroutines are steps of a state machine
whose functions are the ones the classes are proved against. A module is an arbitrary function
of its input, and the network an arbitrary script: dial outcomes, write outcomes, read chunks,
read errors, and the arm each cancellable `select` takes. A probe's history is kept as a log of
events; the log and the fields named as history in the comments exist only to state properties.

## What the model shows

* While the context lives nothing is lost. Once a run has closed its sink, every output names
  exactly the targets of the shards (`EndToEnd.OutputsNameExactlyTheTargets`), and the record of
  a target is made up exactly when no stream ever delivered a decodable result for its key
  (`EndToEnd.MadeUpIffNothingReceived`). Every other record in an output is, result and all, what
  a probe of one of the targets came to (`EndToEnd.OutputsHoldProbeResults`). All three are about
  workers that report what they were given. With any workers whatever, the record is made up exactly when no result for its key was
  received after the shards were computed, or was just then in a handler's hand on its way to be
  deleted from `pending` (`Delivery.NoTargetIsLost`); that second case is a race between
  internal/coordinator/coordinator.go:285-287 and :196-199 that a run can meet
  (`Shutdown.EarlyResultMayClear`).
* The hypothesis cannot be dropped. internal/coordinator/coordinator.go:293-300 and the "Fault
  tolerance" section of the repository's own README.md promise that unfinished targets are
  visible in the output after the run was stopped. A `select` with a done context may skip the
  send although the queue has room, and `ReportUnresolved` sends under the run's own context. The
  record about to be sent is sure to arrive if and only if the context is not done
  (`Shutdown.UnresolvedIsDeliveredIffNotCancelled`); a cancelled run whose queue always has room
  may end with empty outputs (`Shutdown.LostTargetsExist`). And `ReportUnresolved` is reached
  only through cancellation, a listener failure or the register timeout
  (`Delivery.ReportingFollowsCancelOrFailure`).
* cmd/scannerl/coordinator.go:55-59 says that reporting is a no-op if the rendezvous never
  completed, and gives a register timeout as an example. The statement holds: reporting has
  nothing to send if and only if the rendezvous never completed or every key of the shards has
  been cleared (`Delivery.NothingToReportIff`). The example does not imply its condition:
  `register` does not look at `aborted`, so the last worker may register between the timeout and
  the server's stop, and such a run reports every target though none was pushed
  (`Shutdown.TimedOutRunMayReport`).
* A result clears the target it was probed for exactly when the port fits in 32 bits, whatever
  hosts and ports the module restarted to (`EndToEnd.ResultCarriesItsKey`).
* A read that yields no bytes and no error counts as "nothing received" when it comes first, and
  is not retried; later in a round it counts as a packet. The code is followed.

Assumption: no RPC handler runs once `ReportUnresolved` has begun, the calling rule stated at
internal/coordinator/coordinator.go:298-300. `Protocol.Live` is where it enters.

## Model

| member | source | states |
|---|---|---|
| Delivery.NoTargetIsLost | internal/coordinator/coordinator.go:285-319 | in a finished run whose context was never done every target of the shards is in every output, by a made-up record exactly when no result for its key was received since sharding or was being handled just then; that is "none received since" exactly if the key was not caught in that race alone; every genuine record in an output is, result and all, one that a stream delivered |
| Delivery.MadeUpRecord | internal/coordinator/coordinator.go:309-318 | what stands in an output for a target without a result is its address, the outcome unknown, and the text that says so |
| EndToEnd.MadeUpIffNothingReceived | internal/coordinator/coordinator.go:285-319 | with workers that report only targets they received, the record is made up exactly when no decodable result for its key was received after the shards were computed, that is, was ever delivered on any stream |
| Shutdown.EarlyResultMayClear | internal/coordinator/coordinator.go:196-287 | the race exists: a result received before the last registration and deleted after it leaves its target without a made-up record |
| Delivery.NothingToReportIff | cmd/scannerl/coordinator.go:55-60 | ReportUnresolved has nothing to send if and only if the rendezvous never completed or every key of the shards has been cleared |
| Shutdown.TimedOutRunMayReport | cmd/scannerl/coordinator.go:55-60 | for any number of workers and target list some run that timed out, then met its last registration, ends with every target reported in every output, none of them ever pushed |
| Delivery.FinishedOutputs | cmd/scannerl/coordinator.go:60-64 | such a run leaves every output with the whole accepted sequence, nothing dropped, and one made-up record per target still pending |
| EndToEnd.OutputsNameExactlyTheTargets | internal/coordinator/coordinator.go:203-214 | with workers that report only targets they received, a key is in an output if and only if it is a key of the shards |
| Shutdown.UnresolvedIsDeliveredIffNotCancelled | internal/coordinator/coordinator.go:309-318 | the record ReportUnresolved sends next is sure to reach an output if and only if the context is not done |
| Shutdown.LostTargetsExist | internal/output/sink.go:53-58 | for any number of workers and target list some cancelled run, its queue having room throughout, ends with empty outputs |
| Shutdown.CancelMayLoseEverythingPending | cmd/scannerl/coordinator.go:45-60 | cancelling in any reachable serving state may lose every pending target and every result in a handler's hand |
| Shutdown.CanStop | cmd/scannerl/coordinator.go:44-64 | once the server may stop, the run can always be brought to its end, whatever its handlers hold, without cancelling and without hearing anything more |
| Shutdown.CanFinish | cmd/scannerl/coordinator.go:60-64 | from the start of reporting the run can always be brought to its end |
| Shutdown.NextActionWorks | cmd/scannerl/coordinator.go:60-64 | until the run is over its next shutdown action is possible and lowers a bound on the steps left |
| Delivery.EveryTargetIsAccountedFor | internal/coordinator/coordinator.go:285-289 | in every reachable state, cancelled runs included, a target is pending, in a handler's hand, accepted or dropped, and drops happen only after cancellation |
| Delivery.EveryPendingTargetIsReported | internal/coordinator/coordinator.go:301-319 | after ReportUnresolved every target still pending has a made-up record accepted or dropped |
| Delivery.OnlyCancelledSendsDrop | internal/output/sink.go:53-58 | a step drops a record only in a Send taken while the context is done, one record at a time |
| Delivery.RendezvousIsSafe | internal/coordinator/coordinator.go:157-201 | never more callers than workers, slots in order without repeats, shards exactly once the last has arrived, each worker holds a prefix of its own shard |
| Delivery.ChannelsCloseOnce | internal/coordinator/coordinator.go:127-139 | ready closes with the last registration and then stays closed with the shards fixed; aborted stays closed and never closes after ready |
| Delivery.ReportsAddUp | internal/coordinator/coordinator.go:253-291 | a stream acknowledges one result per decodable one received; what was accepted or dropped is what was acknowledged, record by record and each as often |
| Safety.GenuineIsDelivered | internal/coordinator/coordinator.go:278-288 | a genuine record in the sink or among the drops is what some result on some stream decodes to |
| Delivery.StreamsAreFifo | internal/coordinator/coordinator.go:253-291 | what a handler received and has still to receive is what was put on its stream, in order |
| Progress.CanReceiveShard | internal/coordinator/coordinator.go:163-180 | while the run is live and its worker connected, a call can be brought to have sent its whole shard, and the worker to have all of it |
| Progress.CanDrainStream | internal/coordinator/coordinator.go:253-291 | while the run is live a handler can be brought to the end of its stream without giving up a record |
| Progress.ScanCanSucceed | cmd/scannerl/coordinator.go:20-70 | for any target list and any results that answer for all of it some uncancelled run gives every worker its whole shard and ends with all these results, and nothing made up, in every output |
| Safety.RunsKeepInv | internal/coordinator/coordinator.go:186-319 | every reachable state of every interleaving satisfies the invariant |
| Safety.KeepsInv | internal/coordinator/coordinator.go:186-319 | every single step keeps it |
| Safety.StreamKeepsAccounted | internal/coordinator/coordinator.go:285-289 | a cleared key never leaves the union of hand, sink and drops |
| Coordinator.RegisterIsConsistent | internal/coordinator/coordinator.go:186-214 | a registration takes the next slot or is refused; the last one files exactly the drained targets under their keys and stores their shuffle cut into even shards |
| Coordinator.TimeoutAbortsIff | internal/coordinator/coordinator.go:127-139 | the timeout aborts exactly when a worker is missing and touches nothing else |
| Coordinator.DecodableIff | internal/coordinator/coordinator.go:278-284 | the records of a stream are what its results decode to, undecodable ones skipped |
| Coordinator.KeptInOrder | internal/coordinator/coordinator.go:285-289 | every record whose Send did not give up keeps its place among those kept |
| Coordinator.LateRegistrationStillFiles | internal/coordinator/coordinator.go:186-201 | a last registration after the timeout leaves both channels closed and every drained target pending |
| Coordinator.CoordinatorServer.Register | internal/coordinator/coordinator.go:186-201 | the new state and slot are those of the specification, and ready is still open when it is closed |
| Coordinator.CoordinatorServer.ComputeShards | internal/coordinator/coordinator.go:203-214 | returns the cut of the shuffled list and files each of its targets |
| Coordinator.CoordinatorServer.OnRegisterTimeout | internal/coordinator/coordinator.go:127-139 | aborts exactly when a worker is missing, closing aborted at most once |
| Coordinator.CoordinatorServer.ReportResults | internal/coordinator/coordinator.go:253-291 | the acknowledgement counts the decodable results, their keys leave pending, their records reach the sink in order but for given-up sends |
| Coordinator.CoordinatorServer.ReportUnresolved | internal/coordinator/coordinator.go:301-319 | one made-up record per pending target, in some order of the map |
| Coordinator.CoordinatorServer.ShutDown | cmd/scannerl/coordinator.go:55-64 | reporting before closing: every output ends with what was accepted followed by the made-up records |
| PendingKey.KeyInjective | internal/coordinator/coordinator.go:216-218 | two keys are equal exactly when host and port are, colons in hosts included |
| PendingKey.PendingRefinesPairs | internal/coordinator/coordinator.go:207-211 | the string-keyed map is a map keyed by host and port |
| PendingKey.DigitsRoundTrip | internal/coordinator/coordinator.go:216-218 | reading a printed number back gives the number |
| Shard.SplitEven | internal/coordinator/shard.go:11-27 | the loop yields the cut at i*base+min(i,excess) |
| Shard.CutIsPartition | internal/coordinator/shard.go:11-27 | the shards joined in index order are the list |
| Shard.CutIsEven | internal/coordinator/shard.go:5-10 | shard lengths differ by at most one and never increase |
| Shard.ShardsPartitionTheTargets | internal/coordinator/coordinator.go:203-214 | for any shuffle the joined shards are a permutation of the drained list |
| Shard.EveryOrderIsDrawn | internal/coordinator/coordinator.go:203-205 | the draws of the shuffle can put the list in any order |
| Convert.EncodesIff | internal/rpc/scannerpb/convert.go:32-72 | a record encodes if and only if its outcome is one of the three and its value is nil or spellable, to exactly these wire fields |
| Convert.DecodesIff | internal/rpc/scannerpb/convert.go:38-99 | a result decodes if and only if its outcome code is one of the three and its value is absent or decodable, to exactly these fields |
| Convert.TargetRoundTrip | internal/rpc/scannerpb/convert.go:13-30 | a target survives the wire if and only if its port fits in 32 bits, and the wire port is the port modulo 2^32 |
| Convert.ResultRoundTrip | internal/rpc/scannerpb/convert.go:48-99 | whatever can be encoded decodes to the same record, value canonicalised, port reduced to 32 bits |
| Targets.StreamTargets | internal/worker/targets.go:15-43 | forwards a prefix of the messages in order, all of them exactly if never cancelled, and at most one error, only after all of them |
| EndToEnd.ResultCarriesItsKey | internal/engine/probe.go:119-121 | push, probe with any module and network, report: the key is the pushed target's exactly when its port fits |
| EndToEnd.ResultClearsItsTargetAlone | internal/coordinator/coordinator.go:285-287 | such a result removes that entry and no entry of another host or port |
| EndToEnd.WorkerAnswersEveryTarget | cmd/scannerl/worker.go:35-62 | shard, pool, sink and stream of a worker run together: its output has the record of a probe for every target of the shard, and each with one of the three outcomes and a spellable value is a result on its stream that clears the target |
| EndToEnd.OutputsHoldProbeResults | internal/coordinator/coordinator.go:278-288 | with workers that report only targets they received, each genuine record in an output is what a probe of a target of the shards came to, its value canonicalised and all else unchanged |
| EndToEnd.WorkerAnswersNothingElse | internal/worker/output.go:48-54 | every result on the worker's stream is that of a probe of a target of its shard, and clears it |
| Watch.EveryRunIsAccepted | internal/engine/probe.go:36-99 | for any module, network and number of turns the automaton accepts the history and stands where the probe stands |
| Watch.FinishedProbeIsClean | internal/engine/probe.go:36-99 | a finished probe closed every connection it opened, handed over exactly the bytes it read in order, and kept within one retry budget per connection |
| Watch.NothingCrossesConnections | internal/engine/probe.go:76-97 | whenever a connection opens, earlier ones are closed and their bytes handed over |
| Watch.RecordNamesTheTarget | internal/engine/probe.go:119-121 | the record names the original target whatever the module restarted to |
| Watch.RoundSpendsBudget | internal/engine/probe.go:160-173 | a round writes once plus once per unit of budget spent, an empty payload spends none, and a round without a chunk had none left |
| Watch.RoundContract | internal/engine/probe.go:129-151 | the data is all bytes read, the packet count is positive exactly with data, one per successful read; a round for N packets that got any has N of them unless a read failed, a round without limit ends only in a failed read; asking for none and receiving some is the hard stop |
| Watch.AccumulateDelivers | internal/engine/probe.go:137-144 | after the first chunk there is one read per further packet, and one failed read more exactly if the round is short or without limit |
| Watch.RoundKeepsStream | internal/engine/conn.go:86-96 | the bytes read, followed by those the connection has still to deliver, stay the same through a round |
| Watch.ProbeTerminates | internal/engine/probe.go:44-98 | a module whose state rank falls on every step ends within two turns per unit of rank and two more |
| Turns.RestartReconnects | internal/engine/probe.go:76-97 | a Restart whose connect comes up is followed by a call at the new or kept host and port, with the carried state, nothing received and a full retry budget |
| Turns.DialedIsCalled | internal/engine/probe.go:44-70 | a connect that comes up is followed by a call on that connection |
| Turns.EndsDialingIff | internal/engine/probe.go:45-52 | before a call a probe ends exactly if cancelled or its connect fails, up if refused or reset and unknown otherwise |
| Turns.EndsCallingIff | internal/engine/probe.go:71-95 | after a call it ends exactly with the module's result, its panic as an unknown outcome, or too many packets |
| Turns.CallIsInformed | internal/engine/probe.go:59-69 | every call is told the current address, its connection's IP, the arguments and limit, and what came; the n-th connect is the n-th turn's at the current address |
| Turns.StaysOnItsStream | internal/engine/probe.go:87-95 | on one connection what was read, followed by what is still to come, never changes |
| Watch.ConnectionSpendsOneBudget | internal/engine/probe.go:160-173 | in any run, from the opening of a connection until the next opening, the writes are at most the Continue rounds plus one retry budget |
| Watch.AcceptedConservesBytes | internal/engine/probe.go:129-151 | in any accepted history the bytes read are the bytes handed over plus those not yet handed over |
| Probe.ProbeOne | internal/engine/probe.go:36-99 | if the step-wise run ends at all, the loops end in its record and history, and the record names the given target |
| Probe.Converse | internal/engine/probe.go:54-97 | the callback loop on one connection follows the step-wise run to a reconnect, a finish or a hard stop, and leaves the connection closed |
| Probe.OnceDoneEndsBy | internal/engine/probe.go:36-99 | a probe is over for good once it is over |
| Exchange.SendAndWaitFirst | internal/engine/probe.go:160-173 | the resend loop computes the first chunk and the budget left |
| Exchange.SendRecv | internal/engine/probe.go:129-151 | the read loop computes the round |
| Conn.LiveConn.ReadOne | internal/engine/conn.go:86-96 | bytes win over an error that came with them, and no bytes without an error is an empty chunk |
| Conn.LiveConn.WriteAll | internal/engine/conn.go:101-107 | one write, successful or not |
| Conn.LiveConn.Close | internal/engine/conn.go:50-53 | closes a connection that was open |
| Dial.SocketFrom | internal/engine/dial.go:128-156 | every socket dial before the last failed with EACCES under privileged ports, an EACCES that ends the loop there is the third, and there is one dial without them |
| Dial.DialWithPrivPorts | internal/engine/dial.go:128-156 | the loop computes that result and count |
| Dial.DialWithRetry | internal/engine/dial.go:74-87 | the loop computes the result, attempts, delay and sockets of the recursive connect |
| Dial.DialIsBounded | internal/engine/dial.go:74-87 | every attempt but the last failed, a connect fails only after all 1+retries attempts or in a wait cut short, and socket dials are at most three per attempt |
| Dial.DialOnceIsUpIff | internal/engine/dial.go:94-122 | an attempt comes up exactly if lookup, socket and TLS handshake do, and otherwise fails with the first error |
| Dial.ConnectCounts | internal/engine/dial.go:106-121 | a connect opened and closed one socket per failed handshake, and dialed as many as its attempts did |
| Dial.ConnectDelay | internal/engine/dial.go:76-84 | n attempts wait b*(2^(n-1)-1) in all exactly when the last wait fits in 64 bits |
| Dial.BackoffDoubles | internal/engine/dial.go:83-83 | the k-th backoff is b*2^k exactly while that fits in 64 bits |
| Banner.HttpReturnsTheHead | internal/fpmodule/modules/http.go:58-72 | run by the engine on any cut of a stream, the empty one included, the module ends in its second call with the prefix before the first blank line, exactly when its request got through and something came |
| Banner.HttpEndsInTwoCalls | internal/fpmodule/modules/http.go:58-72 | on any connection whatever the module ends in its second call |
| Banner.HttpSendsTheRequest | internal/fpmodule/modules/http.go:58-62 | the first thing written on the connection is the request line, the Host header, the close header and an empty line |
| Banner.SegmentationIndependent | internal/fpmodule/modules/http.go:58-72 | two cuts of one stream give the same record |
| Banner.TcpBannerReturnsTheFirstChunk | internal/fpmodule/modules/tcpbanner.go:57-71 | ends in its second call with the first chunk alone |
| FpModule.Head | internal/fpmodule/modules/http.go:68-71 | the prefix before the first occurrence of the blank line, or everything |
| FpModule.IndexFrom | internal/fpmodule/modules/http.go:68-68 | the least position at which the separator occurs |
| Sink.SinkIsFifoFanOut | internal/output/sink.go:40-72 | under any interleaving outputs hold prefixes of the accepted sequence, earlier ones never behind and at most one ahead; the queue keeps within capacity; at cleaning all hold everything |
| Sink.StepRefines | internal/output/sink.go:40-72 | every atomic step of Send, the consumer and Close keeps that |
| Sink.SinkCanMove | internal/output/sink.go:62-72 | a closed sink drains, exits and cleans in boundedly many steps; a full queue always makes room |
| Sink.OutputSink.Send | internal/output/sink.go:53-58 | the record is enqueued unless the context is done and the select gives up |
| Sink.OutputSink.Deliver | internal/output/sink.go:42-49 | the oldest record goes to every output in turn |
| Sink.OutputSink.Close | internal/output/sink.go:62-72 | every output holds the whole accepted sequence and is cleaned once, after the queue drained |
| Pool.PoolConservesTargets | internal/engine/engine.go:38-58 | under any schedule at most the pool size is probing, and pulled targets are in flight, accepted or dropped with multiplicity |
| Pool.PoolSendsEveryTarget | internal/engine/engine.go:38-58 | when Run returns and the context was never done the sink took one record per target, duplicates included |
| Pool.PoolSendsOnlyProbes | internal/engine/engine.go:38-58 | every record sent or dropped is what a probe of one of the targets came to |
| Pool.PoolCanFinish | internal/engine/engine.go:38-58 | with a module that makes progress, on any network and with any queue bound, Run can be brought to return and Close after it from any state, without the context ending; senders blocked on a full queue included |
| Pool.FinishedShowsAll | internal/output/sink.go:62-72 | once Run has returned and the sink is closed, every output has every record the pool sent |

## Left out

- gRPC transport and generated code: a stream is a sequence that may break after any prefix.
- Sockets, DNS, TLS, deadlines and wall-clock time: scripts of outcomes; time is the sum of backoff waits.
- JSON text and `NormalizeValue`: an arbitrary codec that decodes what it encodes up to a canonical form.
- `https_certif`, `UpgradeTLS` and any other use a module makes of its connection object.
- `watchCancel`, socket options, registries, flags and output formatting: single-branch or runtime code.
- Target parsing and CIDR expansion: the drained list is arbitrary, duplicates allowed.
- Pool.PoolConservesTargets: the goroutine pool and the distributed run are step machines on values, not goroutines sharing objects.
- Coordinator.CoordinatorServer.ReportResults: the class method runs one stream without interference; interleaved streams are the steps of Protocol.
- Probe.ProbeOne: a probe of a module that never finishes does not return, so the method is about those that end; Watch.ProbeTerminates names modules whose probes do, and Watch.EveryRunIsAccepted covers every prefix of every probe.
- Watch.EveryRunIsAccepted: a module's reply depends on its input alone, as the module contract demands.
- Shard.ShardsPartitionTheTargets: the quality of the shuffle and of the privileged-port choice is not modelled.
- EndToEnd.OutputsNameExactlyTheTargets: workers that report targets they never received are excluded here; Delivery.NoTargetIsLost admits them.
- EndToEnd.MadeUpIffNothingReceived: the same workers are excluded; the exact condition for arbitrary ones is in Delivery.NoTargetIsLost.
- Banner.HttpReturnsTheHead: a stream that is empty on the first read and delivers bytes after a resend is covered by Banner.HttpEndsInTwoCalls only.
- Shutdown.CanStop: that a run can be brought to its end, not that every fair scheduler brings it there.
