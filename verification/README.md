# A verified model of the receiver's supervision and evidence tooling

The repository is a Bluetooth LE Audio receiver together with the tooling that
supervises its test runs and judges their evidence.  This project models that
tooling in Dafny 4.11 and proves what it is relied upon for: who owns a file
descriptor or a process, which logs are accepted, what a hash or a capture
vouches for, and that every supervision loop comes to an end.

Check it with `dafny verify dfyconfig.toml`.

Each source component has its own module; `Common` holds what several share.

| module | component |
|---|---|
| `Descendants` | the subreaper that signals and reaps adopted processes while PIDs are reused under it |
| `Acquire` | the owner of file descriptors that arrive in asynchronous replies |
| `Cohort` | the supervision of three workers through deadline, TERM, KILL and drain |
| `Procedures`, `Wire` | the acceptor of ASE control-point procedures, and the wire forms of section 5 of the Audio Stream Control Service 1.0 |
| `TxAudits`, `TxComplete`, `TxOrder`, `UntidyLog` | the accounting of transmit registrations and audits, its converse, when a retirement repeats the last retained row, and two logs that differ in it |
| `CaseWindows` | the windows of test cases and the diagnostics they declare |
| `Capture`, `Collectable` | the guest's packet monitor and the host's validator of its text, and what the one writes and the other accepts |
| `Transport`, `Recipe` | evidence hashing and run-length recipes |
| `Closure` | completing a closure of store roots under links, within a budget |
| `Accountant` | the external-result accountant and its mutation controls |
| `PacedWriter`, `ReadyLine`, `Endpoint` | the paced frame writer, the ready-line reader, and strict-mono admission |

Code that updates state is modelled by classes and loops, proved against functions
of values; what the source promises is then proved of those functions.  Everything the
program cannot control is a parameter: interleavings are scripts or step sequences, and a
contract holds for all of them.  SHA-256, JSON text, XML text, date and path syntax are
parameters too.  Event logs come as parsed rows whose line number is their position.

Some properties hold of the code only under a condition.  The model follows the code and
states the condition, in both directions:

* `_tx_audits` requires a retirement to repeat the result of the stream's last *recovery*.
  That is the last *retained row* of the log if and only if, in the stream's last window, the
  row of its last recovery comes after those of the earlier ones (`TxOrder.AcceptedOrder`).
  `UntidyLog` holds an accepted log for either case.
* The host accepts what the guest's monitor reports as ok if and only if the text is within
  the host's own 4 MiB limit and the observed clocks did not go back.
* The host accepts exactly what some run of the guest can write, within its own limit and with
  orderly clocks, as long as a reported drop status is not missing from a later packet; the
  guest never writes such a capture but the host would accept it (`Collectable.LapsedIsValid`).
* The terminal reserve of the monitor is large enough for the ok row whenever the cap has at
  most 1920 decimal digits; the default cap has 7.
* The supervision loop of `worker_cohort` is bounded from the time its deadline is noticed;
  when the first turn starts late, that is the time of the first turn.
* Dropping a test case is refused as `case-coverage` if and only if there were at least two;
  dropping the only one is refused as `zero-execution`.
* The Enable batch builder announces two records whatever it holds, so its bytes are parsed
  back if and only if it holds two, with distinct IDs.

## Model

| member | source | states |
|---|---|---|
| Descendants.OpenedBeforeChecked | scripts/bluez_host_descendants.py:104-111 | over any interference, if the scanned birth tick still owns the PID after the descriptor was opened, the descriptor refers to that very instance |
| Descendants.CheckedBeforeOpenedIsUnsafe | scripts/bluez_host_descendants.py:104-111 | with the two calls the other way round, PID reuse defeats the check |
| Descendants.DescendantScope.Stat | scripts/bluez_host_descendants.py:37-43 | a state that is read was true of the process that owned the PID at that moment |
| Descendants.DescendantScope.Children | scripts/bluez_host_descendants.py:46-54 | a scan is exactly what the stat lines, read one after the other, show as children of the owner; it fails only when the directory cannot be read |
| Descendants.DescendantScope.Observe | scripts/bluez_host_descendants.py:104-111 | a descriptor is returned exactly when the PID can be opened and the stat line then read still shows the scanned child, and it belongs to that (pid, birth) |
| Descendants.DescendantScope.Send | scripts/bluez_host_descendants.py:113-128 | at most one delivery, only to the scanned instance, exactly when it could be opened, identified and reached; it is recorded, and another failure than absence is one error |
| Descendants.DescendantScope.Reap | scripts/bluez_host_descendants.py:141-167 | a defunct child is reaped and recorded exactly when waiting finds it; one that waiting does not find but that lives as a child is one error; nothing is signalled |
| Descendants.DescendantScope.Terminate | scripts/bluez_host_descendants.py:168-171 | exactly one TERM attempt is added, delivered exactly when the child can be reached, its time noted after the attempt |
| Descendants.DescendantScope.Kill | scripts/bluez_host_descendants.py:172-177 | exactly one KILL attempt is added, delivered exactly when the child can be reached, at least two seconds after its TERM |
| Descendants.DescendantScope.Treat | scripts/bluez_host_descendants.py:134-177 | a scanned child becomes adopted; a live one has had TERM, and KILL once the grace is over; a defunct one gets no signal |
| Descendants.DescendantScope.Round | scripts/bluez_host_descendants.py:132-180 | one turn keeps everything treated so far, treats its own scan and is the last exactly when that scan was empty |
| Descendants.DescendantScope.Sweep | scripts/bluez_host_descendants.py:130-182 | the sweep ends; every child of every scan but the last was adopted and sent what it was due; scans begin before the deadline except the last; it escapes or counts an error only for a refused call, an unreapable child or a remaining one |
| Descendants.DescendantScope.FirstLook | scripts/bluez_host_descendants.py:186-193 | the exit has unexpected live descendants exactly when the body returned normally and the first scan shows a child that is not defunct |
| Descendants.DescendantScope.Clean | scripts/bluez_host_descendants.py:189-196 | the first scan decides about unexpected descendants, the others are treated; children may remain only after eight seconds |
| Descendants.DescendantScope.Restore | scripts/bluez_host_descendants.py:197-204 | without a new error the flag was set to the saved value and read back as that; an error has a refused call or another value as its reason |
| Descendants.DescendantScope.Exit | scripts/bluez_host_descendants.py:184-214 | over every interleaving each signal reached an instance scanned as direct child, TERM and KILL are tried at most once each, and a delivered KILL comes at least two seconds after a delivered TERM; descendants are unexpected exactly when the body returned and the first scan shows a live child; `ok` exactly without errors, unexpected children or cancellation, and then every scanned child was treated, the last scan was empty and the flag is restored; each error has a reason |
| Acquire.StepConserves | scripts/bluez_guest_acquire.py:20-170 | every atomic step of any thread keeps each descriptor in exactly one of held, queued for closing, transferred or close-attempted, and each bound call likewise |
| Acquire.EveryRunConserves | scripts/bluez_guest_acquire.py:20-170 | so it holds after every interleaving of all operations |
| Acquire.NothingLeftAfterCleanup | scripts/bluez_guest_acquire.py:139-170 | after a finished cleanup none is held, each delivered descriptor was transferred or closed exactly once, and each bound call cancelled exactly once |
| Acquire.SettledCounts | scripts/bluez_guest_acquire.py:157-167 | the unlocked part of the cleanup cancels and closes each thing it took over once |
| Acquire.UntakenIsFinal | scripts/bluez_guest_acquire.py:127-137 | the list that begin_cleanup returned stays the list of never-taken requests, whatever runs later |
| Acquire.UntakenIsExact | scripts/bluez_guest_acquire.py:127-137 | that list names each untaken request once and no other |
| Acquire.EveryRunTells | scripts/bluez_guest_acquire.py:65-125 | over every interleaving a request is replied to, failed or holding a descriptor exactly as its history of answers and takes says |
| Acquire.ReadyMeans | scripts/bluez_guest_acquire.py:106-125 | a take succeeds exactly when no cleanup has begun and the first answer to the request was a sound reply that nobody has taken yet |
| Acquire.AwaitedMeans | scripts/bluez_guest_acquire.py:65-95 | a reply is kept exactly for a registered request without an answer before any cleanup |
| Acquire.AcquireOwner.Register | scripts/bluez_guest_acquire.py:20-46 | the registration step, refused exactly under the source's conditions |
| Acquire.AcquireOwner.Bind | scripts/bluez_guest_acquire.py:48-63 | the bind step, and when it raises |
| Acquire.AcquireOwner.Received | scripts/bluez_guest_acquire.py:65-95 | the reply step: kept only if awaited and sound, otherwise closed and raised; a late or duplicate one and a failed close are one error each |
| Acquire.AcquireOwner.Failed | scripts/bluez_guest_acquire.py:97-104 | the failure step; only an unknown token raises, a duplicate is one error |
| Acquire.AcquireOwner.Take | scripts/bluez_guest_acquire.py:106-125 | hands over the descriptor exactly when ready, and then no longer holds it |
| Acquire.AcquireOwner.BeginCleanup | scripts/bluez_guest_acquire.py:127-137 | closes registration and returns the untaken requests, sources first |
| Acquire.AcquireOwner.FinishLocked | scripts/bluez_guest_acquire.py:139-156 | the locked section takes over everything held, once |
| Acquire.AcquireOwner.FinishCleanup | scripts/bluez_guest_acquire.py:139-170 | run alone, it settles everything and reports each failed cancel and close; a second call changes nothing |
| Cohort.FirstFailure | scripts/ascs_bsim_run.py:419-422 | the first worker in role order with a nonzero exit code, if any |
| Cohort.ReadOne | scripts/ascs_bsim_run.py:441-451 | one read extends that worker's log by its bytes up to the cap, or marks its end; an earlier error stays |
| Cohort.SignalPass | scripts/ascs_bsim_run.py:407-410 | a pass sends the signal to exactly the workers that have not exited and can still be identified, in role order, unless sending raises |
| Cohort.Detect | scripts/ascs_bsim_run.py:396-410 | the first error stays; otherwise it is the cancellation, else the deadline, else the first nonzero exit in role order, else none; the error starts the TERM clock once and TERM goes to every reachable worker |
| Cohort.CheckExited | scripts/ascs_bsim_run.py:411-431 | leaves exactly when all exited and are drained or out of time; the error is then that of the first nonzero exit, else a remaining pipe; leaving without one means whole logs and zero exits |
| Cohort.KillAndRead | scripts/ascs_bsim_run.py:432-451 | KILL goes to every reachable worker once the TERM grace is over, and then nothing but a read can set an error |
| Cohort.OneTurn | scripts/ascs_bsim_run.py:396-451 | a turn sets error, TERM time and KILL time at most once and in this order, KILL not before the TERM grace is over, signals every reachable worker, and goes round only when nothing is due |
| Cohort.Latched | scripts/ascs_bsim_run.py:395-451 | over all turns, an error, a TERM time or a KILL time once set is never changed |
| Cohort.AlarmIsFinal | scripts/ascs_bsim_run.py:395-451 | the first turn with a cancellation, a passed deadline or a nonzero exit sends TERM in that turn and fixes the error of all later ones, in this precedence |
| Cohort.Supervise | scripts/ascs_bsim_run.py:395-451 | no turn starts later than 7 s + 2d after the deadline was noticed; every alarm leads to TERM in its turn and the first one is the error and cause of the end; an error or exception has its reason in the script; a KILL grace never ends without an error, so that fallback is dead code; leaving without error means whole logs and zero exits |
| Cohort.WorkerCohort | scripts/ascs_bsim_run.py:352-535 | a normal return means three zero exits, every pipe at its end, every retained log whole, no alarm and no cleanup fault; the first alarm is the first cause; a failure has a first cause and a reason in the script or the cleanup |
| Procedures.AcceptsIffWellFormed | scripts/ascs_results.py:1258-1411 | the monitor accepts a log if and only if it decomposes into consecutive blocks numbered from 1, each with one CP, raw ones also with REQUEST and WRITE in order, raw transactions 1..k, all before retirement |
| Procedures.CheckProcedures | scripts/ascs_results.py:1258-1411 | the loop decides exactly that and returns the raw owners of the decomposition |
| Procedures.DecompositionIsAccepted | scripts/ascs_results.py:1258-1411 | every such decomposition is accepted with exactly its state |
| Procedures.AcceptedDecomposes | scripts/ascs_results.py:1258-1411 | every accepted prefix decomposes |
| Procedures.RetirementsMeaning | scripts/ascs_results.py:1264-1268 | ending before the noted retirement means some retirement of the generation follows |
| Procedures.HelperResponseMeans | scripts/ascs_results.py:1361-1367 | the expected helper response is opcode, count and for each ASE its ID and two zeros, byte by byte |
| Procedures.BeginAccepted | scripts/ascs_results.py:1271-1316 | the staged checks of BEGIN accept exactly the heads of a decomposition |
| Procedures.CpAccepted | scripts/ascs_results.py:1345-1377 | the staged checks of CP accept exactly the responses of a decomposition |
| Wire.EnableBatch | scripts/ascs_results.py:673-699 | the encoding of the records after a fixed count of two; refused when a length does not fit its byte |
| Wire.ParseMetadata | scripts/ascs_results.py:1422-1434 | accepts exactly the encodings of as many records as announced with distinct IDs, no byte left, and returns their map |
| Wire.Aligned | scripts/ascs_results.py:1422-1434 | a byte string can be split into records in only one way |
| Wire.EnableRoundTrip | scripts/ascs_results.py:1422-1434 | any records with distinct IDs and short metadata are parsed back from their encoding |
| Wire.BatchRoundTrip | scripts/ascs_results.py:673-699 | the builder's bytes are parsed back if and only if it had two records with distinct IDs |
| Wire.ResponseBytes | scripts/ascs_results.py:702-718 | the response carries each record in order, 0xFF as count for a global error, and passes the control-point length and ID test |
| Wire.ResponseInjective | scripts/ascs_results.py:702-718 | with nonzero IDs, different expectations give different bytes |
| TxAudits.One | scripts/ascs_results.py:1051-1067 | finds a row if and only if exactly one unclaimed row fits |
| TxAudits.RecoverAse | scripts/ascs_results.py:1074-1130 | meets the three duties of one ASE of a recovery, or refuses |
| TxAudits.AseKeeps | scripts/ascs_results.py:1074-1130 | each success claims three new rows of that stream and phase: a successful registration, a later guard before the recovery, and a sound retained row after the one successful unregistration of that phase, which itself follows the recovery; no other duty of the window competes for the retained row |
| TxAudits.RecoverWindow | scripts/ascs_results.py:1069-1163 | the books of a case window, recovery by recovery |
| TxAudits.RecoverPartial | scripts/ascs_results.py:1131-1163 | meets the two duties of a partially streamed source, or refuses |
| TxAudits.AllBooksKeep | scripts/ascs_results.py:1069-1163 | after any number of windows exactly their duties have been met, each by one row, in its bracket of registration, recovery or partial source and unregistration, and each stream is booked with what its last duty kept |
| TxAudits.RetireStream | scripts/ascs_results.py:1181-1240 | the chain retire, forget, forgotten or the single unused row |
| TxAudits.ChainOfIsOk | scripts/ascs_results.py:1181-1240 | the chain follows the retained result in increasing lines between unsubscription and cleanup, and repeats its count and hash |
| TxAudits.AcceptedIsAccounted | scripts/ascs_results.py:1044-1244 | acceptance means a one-to-one correspondence between the duties of the log and its registration and audit rows, each row meeting its duty on its own fields and within its bracket, and no other row competing; every discovered stream ends in retire, forget, forgotten after its booked result, or was never used and has no row but the one that says so |
| TxAudits.CheckAudits | scripts/ascs_results.py:1044-1244 | the loops accept exactly the accepted logs, and return that correspondence |
| TxComplete.AccountedIsAccepted | scripts/ascs_results.py:1044-1244 | a log whose duties and rows can be so matched is accepted, with exactly that matching and those results |
| TxComplete.AcceptedIffAccounted | scripts/ascs_results.py:1044-1244 | so a log is accepted if and only if such a correspondence exists |
| TxOrder.SequencedIff | scripts/ascs_results.py:1069-1163 | no retained row comes after its stream's booked result if and only if the log is sequenced |
| TxOrder.AcceptedOrder | scripts/ascs_results.py:1044-1244 | for every accepted log with windows in order: each stream's booked result is its last retained row if and only if the closing rows come last in their windows; then each retirement repeats the last retained row and follows all of them, otherwise some row is overtaking |
| UntidyLog.AcceptedThoughUntidy | scripts/ascs_results.py:1069-1130 | a concrete accepted log with two recoveries of a generation in a window, in which a later retained row has another hash than the retirement |
| UntidyLog.AcceptedInOrder | scripts/ascs_results.py:1069-1130 | the same log with its retained rows in the order of the recoveries is accepted and sequenced |
| CaseWindows.FindWindows | scripts/ascs_results.py:721-763 | succeeds if and only if the CASE rows are the begin and end of each inventory case in order, and returns those positions |
| CaseWindows.WindowsTelescope | scripts/ascs_results.py:721-763 | windows are ordered and disjoint in position and time, and the phase at each end is the sum of the deltas so far |
| CaseWindows.PhasesAddUp | scripts/ascs_results.py:721-763 | the last phase is the sum of all declared deltas |
| CaseWindows.WindowsOwnOnce | scripts/ascs_results.py:721-793 | a moment lies in at most one window |
| CaseWindows.CheckDiagnostics | scripts/ascs_results.py:766-793 | accepts exactly when each window holds the declared diagnostics, each diagnostic lies in one window and the client has none |
| CaseWindows.DiagnosedMeans | scripts/ascs_results.py:766-793 | for a client log in time order the loops ask exactly that, moment by moment |
| CaseWindows.DiagnosticsConserved | scripts/ascs_results.py:766-793 | then the multiset of diagnostics in the whole log equals the sum of the declared ones |
| CaseWindows.ExpectedIffTemplates | scripts/ascs_results.py:396-410 | a table of declared diagnostics is read as declared if and only if no key repeats |
| CaseWindows.RepeatedKey | scripts/ascs_results.py:396-410 | with a repeated key it would expect fewer than declared |
| CaseWindows.CheckFamily | scripts/ascs_results.py:721-793 | accepts exactly when the windows are arranged and the log is clean: no client diagnostic, none of the receiver outside a case, and in each case as often as expected; when no declared key repeats, the diagnostics are then conserved |
| Capture.HexRoundTrip | scripts/bluez_guest_monitor.py:104-115 | the hexadecimal of any datagram decodes to it |
| Capture.FramedInjective | scripts/bluez_guest_monitor.py:116-117 | the length-prefixed stream determines the datagrams and their boundaries |
| Capture.ReadControl | scripts/bluez_guest_monitor.py:84-101 | no error exactly for at most one timestamp, all ancillaries sound and a drop counter that never regresses; then the time is that timestamp |
| Capture.HandleDatagram | scripts/bluez_guest_monitor.py:72-114 | no error exactly for a sound datagram, which becomes the row with its fields, its kernel time or none, and its drop status; the host accepts that row |
| Capture.ReserveSuffices | scripts/bluez_guest_monitor.py:53-60 | the terminal row of a clean stop fits into the reserve |
| Capture.KeptIsValid | scripts/bluez_host_results.py:100-238 | what the guest reports ok is valid if and only if it is within the host's cap and the clocks behaved |
| Capture.ReplayMeaning | scripts/bluez_host_results.py:100-238 | the host's running state is the framed stream, total, drop status and opcode counts of the packets |
| Capture.ValidateCapture | scripts/bluez_host_results.py:100-238 | accepts exactly the valid captures, with their summary and opcode counts |
| Capture.Collect | scripts/bluez_guest_monitor.py:43-133 | for every script: running exactly while all polls can be received, without error exactly when it is stopped by signal 2 or 15 after such polls, and then the rows of exactly these datagrams with the report on them if that fits, as it always does at the default cap; on an error the rows before it; never over the cap; accepted by the host under exactly the stated condition |
| Collectable.PacketIsRow | scripts/bluez_host_results.py:181-238 | a row the host accepts is the row of some sound datagram |
| Collectable.RowIsPacket | scripts/bluez_host_results.py:181-238 | the row of a sound datagram is accepted |
| Collectable.ValidIffCollectable | scripts/bluez_host_results.py:100-238 | a capture with a lasting drop status is valid if and only if some run of the guest writes it, within the host's cap and with orderly clocks |
| Collectable.LapsedIsValid | scripts/bluez_host_results.py:186-238 | a concrete capture whose second packet lacks the drop status is valid, yet no run of the guest writes it |
| Transport.MixInjective | scripts/bsim_stage1_parse.py:881-884 | multiplication by the prime modulo 2^32 loses nothing |
| Transport.FnvInjective | scripts/bsim_stage1_parse.py:881-884 | for a fixed payload, different states stay different |
| Transport.FnvConcat | scripts/bsim_stage1_parse.py:881-884 | hashing continues: a concatenation is hashed piece by piece |
| Transport.OneByteChangesHash | scripts/bsim_stage1_parse.py:881-884 | equal-length strings that differ in exactly one byte have different hashes |
| Transport.ExpectedHash | scripts/bsim_stage1_parse.py:908-936 | the hash of the first `count` sent frames, each after its sequence number, extended frame by frame; refused beyond the first fixture's frames |
| Transport.SentByteChangesHash | scripts/bsim_stage1_parse.py:925-936 | one changed byte in one sent frame changes the hash, whatever follows |
| Transport.LateMalformedIsIgnored | scripts/bsim_stage1_parse.py:924-933 | a malformed index at or beyond the count has no effect |
| Transport.HashWitnessesExactlyTheSentBytes | scripts/bsim_stage1_parse.py:908-936 | changing a corpus byte changes the hash if and only if that byte is sent |
| Recipe.PrefixCounts | scripts/bsim_stage1_parse.py:1062-1085 | counts exist exactly when the prefix is in range and no step it touches is unknown, and then count the expanded prefix |
| Recipe.CheckChannel | scripts/bsim_stage1_parse.py:1088-1177 | no finding if and only if all counters are those determined by recipe, transients, pushes and samples per channel; excluded is the PLC count of the slice after the transients; the startup comparison can never fail |
| Recipe.CountableCovers | scripts/bsim_stage1_parse.py:1062-1085 | valid and PLC counts of a countable prefix add up to its length |
| Closure.EntryBudget.Charge | scripts/bluez_host_guest.py:405-409 | charged exactly when the field and the total are within their caps |
| Closure.EntryBudget.Root | scripts/bluez_host_guest.py:411-417 | a root is charged once, and refused exactly at a cap |
| Closure.EntryBudget.Entry | scripts/bluez_host_guest.py:419-425 | an entry and its link are counted exactly when within the caps |
| Closure.Entries | scripts/bluez_host_guest.py:428-466 | the records of the root as found on disk, with their total size within the limit; a refusal has its cause in them |
| Closure.QueryRoots | scripts/bluez_host_guest.py:711-724 | the answered requisites, all charged; a refusal has its cause in the answer or a cap |
| Closure.FollowLinks | scripts/bluez_host_guest.py:506-520 | afterwards every followed link of the root leads into closure or additions; everything added is needed and supplied: linked with all its requisites, or a requisite of such a root; a refusal has its cause |
| Closure.NeededHasReason | scripts/bluez_host_guest.py:489-521 | whatever the closure may hold is initial, linked from a needed root, or a requisite of such a link |
| Closure.SettledNeverEscapes | scripts/bluez_host_guest.py:522-536 | a followed link is never found to escape by the second pass |
| Closure.VerifyPass | scripts/bluez_host_guest.py:522-536 | finds an escaping link if and only if there is one |
| Closure.ClosureCatalog | scripts/bluez_host_guest.py:489-537 | always returns; on success every root is catalogued as on disk, the closure is closed under followed links, holds only roots that are initial, linked with all their requisites present, or requisites of such a root, lies inside the least set so generated, is within root budget and 4 GiB; a refusal has its cause in something needed, and the second pass never rejects |
| Accountant.PolicyGivesDistinct | scripts/check-external-test-results.py:123-188 | an accepted policy names at least one required case, and no case twice among required and excluded |
| Accountant.PolicyMeans | scripts/check-external-test-results.py:123-188 | the staged checks accept a policy exactly when all its parts are sound |
| Accountant.ListRows | scripts/check-external-test-results.py:476-539 | lists the cases, or refuses with the first failed requirement |
| Accountant.JunitReport | scripts/check-external-test-results.py:442-556 | the rows of the report, or the one reason of its refusal |
| Accountant.ReportMeans | scripts/check-external-test-results.py:442-556 | a report is listed as these rows exactly when its elements say so: the wrapper, one row per case in order with its one outcome or a pass, and totals that count them |
| Accountant.Account | scripts/check-external-test-results.py:559-640 | a refusal carries one code and a nonzero status, an acceptance none |
| Accountant.CoverageMeans | scripts/check-external-test-results.py:601-620 | the case checks pass if and only if every required case is listed exactly once, nothing else is, and all passed |
| Accountant.DiscoveryMeans | scripts/check-external-test-results.py:235-250 | discovery is accepted if and only if it is a permutation of the required and excluded cases |
| Accountant.PrerequisitesMean | scripts/check-external-test-results.py:300-317 | prerequisites are accepted if and only if each succeeded and they are a permutation of the required ones |
| Accountant.RunMeans | scripts/check-external-test-results.py:201-323 | the run record passes if and only if it vouches for the policy's universe, an orderly child, the prerequisites and this report |
| Accountant.AcceptedIffVouched | scripts/check-external-test-results.py:559-640 | evidence is accepted if and only if the policy is sound, the run record vouches, and the elements of the report list exactly one pass of each required case |
| Accountant.DroppedRows | scripts/bluez_host_lane.py:170-178 | an accepted report with its first case dropped is still well formed and lists the other cases |
| Accountant.SkippedRows | scripts/bluez_host_lane.py:179-183 | one with its first case skipped is still well formed and lists it as skipped |
| Accountant.AcceptedIsEditable | scripts/bluez_host_lane.py:169-172 | accepted evidence always has a first case to edit |
| Accountant.ControlVerdict | scripts/bluez_host_lane.py:161-202 | every control of accepted evidence, read back as written, is refused with one code: its own, unless the rewritten files are too large or the only case was dropped |
| Accountant.Controls | scripts/bluez_host_lane.py:161-202 | with orderly processes no control fails if and only if the rewritten files fit and there are at least two cases |
| PacedWriter.BeginsOnSchedule | scripts/bap_central_writer.py:84-124 | frame k never begins before start + k intervals, however late earlier ones were |
| PacedWriter.CeilingBound | scripts/bap_central_writer.py:84-124 | the frame bound is the ceiling of duration over interval |
| PacedWriter.WriteAll | scripts/bap_central_writer.py:96-104 | tells whether any write succeeded, one failure not keeping the others back |
| PacedWriter.PacedWriter.Run | scripts/bap_central_writer.py:84-124 | every turn that wrote is counted once; those in the duration are exactly the first `frames`, at most the ceiling; each way of stopping is reported as itself |
| ReadyLine.ReadOn | scripts/bap_central_security.py:175-188 | the lines of a continued stream are those before and those of the remembered rest continued |
| ReadyLine.WrittenIsRead | scripts/bap_central_security.py:175-188 | lines written with terminators are read back |
| ReadyLine.TakeLines | scripts/bap_central_security.py:175-188 | takes every finished line up to the first ready one |
| ReadyLine.WaitForReady | scripts/bap_central_security.py:140-198 | the verdict and the lines depend only on the bytes delivered and on how they ended: the lines up to the first ready one, or all, an unfinished one counting unless the helper exited |
| ReadyLine.SameBytesSameVerdict | scripts/bap_central_security.py:140-198 | two ways of cutting the same bytes give the same result |
| Endpoint.StepKeepsMono | scripts/bap_central_endpoint.py:200-494 | each callback keeps at most one transport, on FL or FR, and a reservation only while none is accepted; a rejection changes nothing |
| Endpoint.EveryRunIsMono | scripts/bap_central_endpoint.py:200-494 | so it holds after every sequence of callbacks on a fresh mono endpoint |
| Endpoint.ReservationMeans | scripts/bap_central_endpoint.py:379-389 | a channel is reserved exactly while an accepted selection of it awaits configuration or release |
| Endpoint.OnlySelectedChannel | scripts/bap_central_endpoint.py:449-479 | while a selection is open a configuration is accepted exactly for its channel |
| Endpoint.OneTransportAtATime | scripts/bap_central_endpoint.py:411-494 | between two accepted configurations the first transport was cleared or the endpoint released |
| Endpoint.FullMeans | scripts/bap_central_endpoint.py:411-494 | the endpoint is full exactly while a configured transport has not been freed |
| Endpoint.AdmissionMeans | scripts/bap_central_endpoint.py:239-494 | a mono endpoint accepts a selection or configuration exactly when no configured transport lives, the channel is FL or FR, and no other channel is selected |
| Endpoint.FreshSelects | scripts/bap_central_endpoint.py:239-494 | a fresh mono endpoint selects FL or FR, and then configures that channel only |
| Endpoint.NotMono | scripts/bap_central_endpoint.py:239-494 | an endpoint that is not mono accepts everything, reserves nothing and queues each configuration |
| Endpoint.BAPSourceEndpoint.SelectProperties | scripts/bap_central_endpoint.py:239-389 | accepts and reserves exactly as the step does |
| Endpoint.BAPSourceEndpoint.SetConfiguration | scripts/bap_central_endpoint.py:394-494 | accepts, queues and consumes the reservation exactly as the step does |
| Endpoint.BAPSourceEndpoint.ClearConfiguration | scripts/bap_central_endpoint.py:219-234 | removes the first record of that path and closes its descriptor |
| Endpoint.BAPSourceEndpoint.Release | scripts/bap_central_endpoint.py:200-214 | closes every descriptor and forgets everything |
| Endpoint.BAPSourceEndpoint.Serve | scripts/bap_central_endpoint.py:200-494 | any sequence of callbacks leaves the endpoint strictly mono |

## Left out

- D-Bus, BlueZ, PipeWire, serial, QEMU and Nix calls, the desktop gates and the guest's init: orchestration of systems that cannot be seen from here; what they do appears only as scripts and parameters.
- SHA-256, JSON, XML and regular-expression text processing, ISO dates and path syntax: parameters; the controls ask that the files they write are read back as written.
- Malformed log fields: rows are given as parsed, with an explicit value where the source meets an unreadable one.
- The scope's entry, the adopted and reaped part of `check_execution_record`, `Cancel.latch` and `validate_collection`: straight-line comparisons that would add easy members.
- The console report profile of the accountant (`bluez_report`): text parsing; it is a parameter of `Accountant`.
- The list of exempted environment links in `bluez_host_guest.py`: constants; a record says whether it is exempt.
- The configuration walk of `SetConfiguration`, which advances by the length byte alone and so is not a standard LTV walk: the parsed allocation is an input.
- Acquiring transports after configuration: pending records are not cleared there, so the mono bound is a statement about the callbacks only.
- Floating-point rounding: the writer's times are real numbers, the supervisors' times are integers.
- TxOrder.AcceptedOrder: windows are taken to follow one another, as `CaseWindows.WindowsTelescope` proves of the windows the source passes.
- Descendants.DescendantScope.Sweep: bounds the sweep by its deadline but does not promise that every child dies, which no signal can.
- Capture.Collect: room in the reserve is stated for the ok row; an error row with 512 astral characters can exceed it, and then the call raises as the source does.
- Closure.ClosureCatalog: the file system does not change while it is read, budget roots are identified by path rather than by spelling, and pending roots are taken in any order.
- Transport.ExpectedHash: distinct fixtures have distinct stems, so each has its own corpus.
- Cohort.WorkerCohort: starts after the three workers were spawned; a failure while spawning is not modelled.
