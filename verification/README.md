# Susanin: verified model

Susanin steers selected traffic of a MikroTik router through a VPN. Four RouterOS scripts (FAST, SOFT, JUDGE, HEALTH)
learn, per (protocol, address, port) tuple, whether a destination works on the direct route. A C controller installs the
scripts, promotes new versions of them, rolls them back, cleans up after them, collects what they leave behind, and
keeps a list of destinations that always use the VPN. It does all this over the framed RouterOS API, on a router whose
traffic goes on meanwhile and which may refuse any command.

This project models those parts in Dafny and proves what they promise. `dafny verify dfyconfig.toml` checks all of it.

## Layout

| module | models |
|---|---|
| `Namespace` | names of the per-port state lists; the two parsers that recognise them |
| `Evidence` | the evidence machine of one tuple under the profiles FAST, MIDDLE and SLOW, over whole runs |
| `RuleOrder` | the mangle list, every operation on it, and what its order does to a packet |
| `FlowBodies` | the bodies of FAST, SOFT and JUDGE, statement by statement, each proved against `Evidence` |
| `HealthWatch` | HEALTH, and the whole plane: all tuples, all rules, all connections, all four scripts |
| `Wire`, `Session` | length prefixes, sentences, sockets; commands and replies |
| `Renderer` | substitution in an exactly sized buffer; the eight passes over a template; the LAN test |
| `Router` | the router as the lifecycle code meets it: objects, surroundings, refusals, prints |
| `Cleanup` | the adaptive-state cleanup against live traffic, and the fail-open switch |
| `Promote`, `Staging`, `Install`, `Gc` | the lifecycle transactions and the garbage collector |
| `DirectPolicy`, `DirectSync` | VPN Direct: the stored policy, and its projection on the router |

How the parts are put together:

* **A script body is one atomic step.** It sees one row of a snapshot; between two steps any entry may expire. Each
  command of a body is named (`Evidence.Command`), and a step may have any set of them rejected. A rejected command has
  no effect.
* **The surroundings are arbitrary.** In `Router`, what happens between two commands, which commands are refused, what
  a print still shows of objects just removed, which lookups miss a new object, and what an accepted script write really
  leaves are functions of the command number. The only rules (`Router.Lawful`, `Router.Elapse`) are that ids are not
  reused, objects keep what they are for, the controller's own objects are changed by nobody else except as the managed
  scripts do, and, once schedulers are paused and jobs are over, only traffic and expiry are left. Sleeps and retries
  need no accounting (`Router.ElapseChain`).
* **Success is what was read back.** Results are stated as: whatever the surroundings did, this exit implies that state.
  Where a promise needs accepted commands, the condition names them by number (`Promote.FourTaken`,
  `Install.Accepted`) or says so of all later ones (`Obliging`, `Cooperative`, `Still`).
* **Every state is on record.** `Router.Device` records each state a command met and left, each removal command and each
  production write. Claims about moments inside a run, such as "the two reads before a removal", "the state before the
  schedulers were resumed" or "no state was half-on", are claims about that record.
* **Class methods are tied to functions.** The script bodies, the socket code, the buffers and the tables are methods
  with loops and updates in place, proved equal to functions of the old state; the theorems are about the functions.

## Findings

Where the obvious statement is false, the model keeps the code as it is.

* **SLOW can confirm without its re-check.** If the reset after a failed send-back can remove neither TEST nor AWG1
  (templates/judge.rsc.tmpl:233-255), a later healthy connection confirms the tuple although DIRECT was never tried
  again. `Evidence.WedgeIsExact` says exactly when that state arises. It does harm if and only if no re-check had been
  answered before: `Evidence.FirstWedgeExactly` for the continuations of one wedge, `Evidence.WedgesLateExactly` for whole
  runs. Every other run is safe whatever else is rejected (`Evidence.SlowSafety`). FAST and MIDDLE need no such
  condition.
* **A script in flight can break the DOWN state.** FAST, SOFT and JUDGE read the health rule once, when they start
  (templates/judge.rsc.tmpl:3-5). At worst FAST under profile FAST puts a tuple into TEST and adds enabled marking rules
  (`HealthWatch.ReachableBreak`, with values in `HealthWatch.BreakExample`). Fail-open holds if and only if SOFT is not
  in flight, FAST is not in flight (or the profile is FAST and its anchor is not there exactly once), and JUDGE is not
  in flight (or no OK entry outside VPN Direct is left); SOFT and FAST are also harmless if VPN Direct holds every public
  address (`HealthWatch.FailOpenExactly`).
* **A failed source write resumes the schedulers whether or not the old sources came back** (src/promote.c:375-377).
  `Promote.MixedResume` is a run that resumes them over mixed sources. The old sources are back if and only if the
  router took each of the four restore writes, or refused one where nothing had been replaced
  (`Promote.RestoredExactly`). With recovery commands accepted the run ends in one of three ways
  (`Promote.EndsInThreeWays`).
* **Scheduler flags are put back without looking at the answers** (src/promote.c:269-273), and backups are replaced one
  at a time (src/promote.c:275-286). `Promote.PromoteRun` says what is left in every case.
* **Order matters in the cleanup.** Marks come back exactly while an enabled rule finds its list filled
  (`Cleanup.MarksStayAwayExactly`), so lists have to go before marks.
* **Braces that meet can form a new placeholder**: a value that starts with one behind a literal that ends in one
  (`Renderer.BraceCounterexample`), a value that ends in one in front of a literal that starts with one, or an empty
  value between two such literals (`Renderer.JunctionCounterexample`). The theorems about the passes ask that no two
  braces meet, which is exact for "the passes are one substitution and leave no two braces in a row"
  (`Renderer.PassesExactly`). The equality alone survives more, for instance braces that meet but start no placeholder. No
  current template has a brace next to a placeholder.
* **The controller's last check of the total budget cannot fail** (src/gc.c:2132-2140, `Gc.Collect`).
* **The scripts look VPN Direct addresses up exactly** (templates/fast.rsc.tmpl:57), not as networks, and
  `normalize_ip` keeps host bits, so an entry such as 10.1.2.3/8 is stored as typed.
* **An undo may leave a half-dismantled installation running.** If a scheduler that was already enabled cannot be
  removed, the undo takes its scripts and rules away all the same (src/install.c:311-338). `Install.HalfOn` is a
  run of the whole install that ends so, `Install.HalfOnExample` an empty router on which it does. Some state of a failing
  installation is half-on if and only if a scheduler is still enabled when the undo has gone past the schedulers, and
  something it needs is gone at the end (`Install.InstallOutcome`).

## Model

| member | source | states |
|---|---|---|
| Namespace.PortSuffixValid | src/state_cleanup.c:107-125 | the digit loop with its early exit says yes exactly to non-empty decimal strings of value at most 65535; nothing is lost by giving up early, and no 32-bit value wraps |
| Namespace.MatchPortList | src/state_cleanup.c:127-172 | accepts a name iff it is one of the family-and-protocol prefixes followed by a port |
| Namespace.ParsePortList | src/status.c:193-225 | accepts a name iff it is in the status table, and reports a family and protocol the name really has |
| Namespace.TableIsComplete | src/state_cleanup.c:127-172 | the fourteen rows of the cleanup table miss no combination of family and protocol |
| Namespace.PortTextRoundTrip | src/gc.c:185-200 | a printed port reads back as the same number |
| Namespace.StateListInjective | src/gc.c:185-200 | generated list names are equal iff family, protocol and port are |
| Namespace.StateListRecognised | src/state_cleanup.c:127-172 | every generated name is cleaned up and is no address-only name |
| Namespace.CleanupAcceptsExactly | src/state_cleanup.c:93-172 | behind a known prefix, a digit string is accepted iff it is a port |
| Namespace.PortListsAreNotLegacy | src/state_cleanup.c:566-601 | no name with a port is one of the eight address-only names |
| Namespace.OnePrefix | src/state_cleanup.c:127-172 | at most one prefix fits a name, so the order of the table does not matter |
| Namespace.StatusAgreesWithCleanup | src/status.c:193-225 | status recognises exactly the watch, test, ok and cooldown part of what cleanup removes, with the only family and protocol the name can have |
| Evidence.FastSafety | templates/judge.rsc.tmpl:115-120 | FAST, every run with any expiry and any rejected commands: an OK entry rests on a DIRECT failure and a later healthy AWG connection |
| Evidence.MiddleSafety | templates/judge.rsc.tmpl:118-170 | MIDDLE, every run with any expiry and any rejected commands: an OK entry rests, in this order, on two DIRECT failures with different ids and two healthy AWG connections with different ids |
| Evidence.SlowSafety | templates/judge.rsc.tmpl:172-307 | SLOW, every run that wedges only after an answered re-check, or not at all: an OK entry rests, in this order, on two DIRECT failures with different ids, a healthy AWG connection, a DIRECT failure while AWG1 and RECHECK were both there, and a healthy AWG connection with another id than the first |
| Evidence.ProfilesAreOrdered | templates/judge.rsc.tmpl:115-170 | histories that confirm under SLOW confirm under MIDDLE, and those under MIDDLE confirm under FAST |
| Evidence.WedgeIsExact | templates/judge.rsc.tmpl:221-255 | a first AWG observation leaves TEST beside AWG1 iff the named commands are rejected, and then one healthy connection confirms once RECHECK has lapsed |
| Evidence.FirstWedgeExactly | templates/judge.rsc.tmpl:175-289 | after a first wedge every continuation of the run confirms on the SLOW history only, iff a re-check was answered before the wedge |
| Evidence.WedgesLateExactly | templates/judge.rsc.tmpl:175-289 | the condition of SlowSafety is exact: it holds of a run iff from each of its wedges on every continuation confirms on the SLOW history only |
| Evidence.WedgeConfirmsWithoutRecheck | templates/judge.rsc.tmpl:221-289 | a concrete run that shows it, with the three commands that are rejected |
| Evidence.SlowConfirms | templates/judge.rsc.tmpl:172-307 | with everything accepted the five observations do confirm, and the first four do not |
| Evidence.StepKeeps | templates/fast.rsc.tmpl:72-172 | every step of every profile keeps at most one entry in each list and keeps every entry backed by the observations it stands for |
| Evidence.FailureKeeps | templates/fast.rsc.tmpl:253-309 | a DIRECT failure moves a tuple to TEST only on the evidence the profile asks for, stale halves thrown away first |
| Evidence.TestFailedKeeps | templates/judge.rsc.tmpl:310-324 | a failed TEST takes evidence away and never adds any |
| RuleOrder.ApplyKeeps | templates/fast.rsc.tmpl:173-251 | installing, enabling, lazy insertion, removal, the bypass insertion and foreign additions each keep the list ordered and its fixed rules unique |
| RuleOrder.ReachableIsOrdered | src/install.c:63-78 | every list reachable from a router without managed rules has the VPN Direct rule before all other managed prerouting rules, safety before marking, marking before routing |
| RuleOrder.OrderSurvives | src/direct.c:728-911 | any sequence of operations keeps an ordered list ordered |
| RuleOrder.DirectAlwaysBypasses | src/direct.c:797-911 | on every ordered list with an enabled bypass rule, a packet to a VPN Direct address goes to the target table and its mark is left alone |
| RuleOrder.ListedIsMarkedAndRouted | templates/fast.rsc.tmpl:186-222 | on every ordered list, a new packet of a listed tuple is marked and routed in one pass, and its mark is one a list holding its destination gives |
| RuleOrder.DisabledMeansDirect | templates/health.rsc.tmpl:124 | with every AUTO-AWG rule disabled, no packet outside VPN Direct is marked or routed |
| RuleOrder.MarksAreJustified | templates/fast.rsc.tmpl:186-222 | a packet gains a mark only from an enabled rule whose list holds its destination |
| RuleOrder.MarkIsFirst | templates/fast.rsc.tmpl:186 | a mark once set survives the whole pass |
| RuleOrder.WithoutKeepsOrder | templates/fast.rsc.tmpl:195-209 | taking all rules of one comment away keeps order and uniqueness and adds nothing |
| FlowBodies.FlowState.FastFlow | templates/fast.rsc.tmpl:19-316 | FAST on one row leaves the tuple's entries, the mangle list and the connection as the evidence machine says, under any rejections; an unwatched or VPN Direct row changes nothing |
| FlowBodies.FlowState.SoftFlow | templates/soft.rsc.tmpl:37-348 | SOFT on one row likewise, with the WATCH debounce: a late stall counts only in the last half of an open window |
| FlowBodies.FlowState.JudgeTest | templates/judge.rsc.tmpl:81-325 | JUDGE on one TEST-marked row likewise; good wins over failed |
| FlowBodies.FlowState.JudgeOk | templates/judge.rsc.tmpl:327-389 | JUDGE on one OK-marked row likewise; failed wins over healthy, and a renewal whose second half is rejected loses the entry |
| FlowBodies.FlowState.OkVerdict | templates/judge.rsc.tmpl:331-358 | the flag-by-flag verdict is the declarative one |
| FlowBodies.FlowState.Transition | templates/fast.rsc.tmpl:68-314 | the transition that FAST and SOFT share: stale evidence, first evidence, lazy rules, cleared evidence, TEST, in that order |
| FlowBodies.FlowState.Admit | templates/fast.rsc.tmpl:72-172 | whether a failure may go on to TEST, and which evidence it leaves if not |
| FlowBodies.FlowState.ClearStale | templates/fast.rsc.tmpl:72-114 | one surviving half of the re-check evidence is thrown away; the step goes on only if all three removals were accepted |
| FlowBodies.FlowState.ReadEvidence | templates/fast.rsc.tmpl:117-132 | the comment loop finds the connection iff it is the one recorded, and notices unreadable entries |
| FlowBodies.FlowState.FirstDirect | templates/fast.rsc.tmpl:134-171 | first evidence is recorded for this connection and the connection dropped; an unreadable or repeated one stops the step |
| FlowBodies.FlowState.ClearEvidence | templates/fast.rsc.tmpl:254-296 | evidence is cleared and read back; a leftover stops the step before TEST |
| FlowBodies.FlowState.EnterTest | templates/fast.rsc.tmpl:253-309 | TEST is entered only on settled evidence, and the connection dropped only then |
| FlowBodies.FlowState.EnsureRule | templates/fast.rsc.tmpl:181-215 | one per-port rule is made to exist exactly once; says in which rejections it is not |
| FlowBodies.FlowState.RemoveDuplicates | templates/fast.rsc.tmpl:195-209 | all but the first rule of a comment go, in place and in order, unless removals are rejected |
| FlowBodies.FlowState.MakeRules | templates/fast.rsc.tmpl:173-251 | both rules, only with exactly one route anchor |
| FlowBodies.PreparedRules | templates/fast.rsc.tmpl:173-251 | when it reports success both marking rules exist exactly once, rules of other ports keep their number, and failure with one anchor means a rejected command |
| FlowBodies.FlowState.HealthyTest | templates/judge.rsc.tmpl:115-307 | a healthy TEST connection confirms, records first evidence, sends the tuple back or resets it, as the profile says |
| FlowBodies.FlowState.SendTupleBack | templates/judge.rsc.tmpl:175-255 | the first AWG observation under SLOW: every failure on the way ends in the reset, and a TEST entry that stays costs the port its TEST rule |
| FlowBodies.FlowState.ResetTuple | templates/judge.rsc.tmpl:257-278 | inconsistent re-check state is reset; same rule for a TEST entry that stays |
| FlowBodies.FlowState.ConfirmTuple | templates/judge.rsc.tmpl:292-307 | OK in, the other six lists out; a rejected OK leaves everything as it was |
| FlowBodies.FlowState.FailTuple | templates/judge.rsc.tmpl:310-324 | TEST and all evidence out, COOLDOWN in; the connection survives a rejected COOLDOWN |
| HealthWatch.HealthScript.RunHealth | templates/health.rsc.tmpl:29-192 | HEALTH on the tables, statement by statement, does what the plane says: recovery, first miss, second miss with sweep |
| HealthWatch.HealthScript.DropStrayed | templates/health.rsc.tmpl:41-101 | exactly the unmarked LAN connections of confirmed tuples outside VPN Direct go, save those whose removal is refused |
| HealthWatch.FailOpen | templates/health.rsc.tmpl:111-188 | whole runs: from a DOWN state with no flow script in flight until the next answered probe, every AUTO-AWG rule stays disabled, no connection carries an adaptive mark, no WATCH, TEST, DIRECT1, AWG1 or RECHECK entry exists, and OK and COOLDOWN change by expiry only; FailOpenExactly says when scripts in flight do not matter |
| HealthWatch.StaysDown | templates/judge.rsc.tmpl:3-5 | one step of it, for every event but an answered probe |
| HealthWatch.FailOpenExactly | templates/health.rsc.tmpl:111-188 | from a DOWN state, all runs without an answered probe stay down with the lists changed by expiry only, iff no SOFT run is in flight, none of FAST unless profile FAST lacks its single anchor (either of them harmless if VPN Direct holds every public address), and none of JUDGE unless no OK entry outside VPN Direct is left |
| HealthWatch.HoldsWhileUnbreakable | templates/judge.rsc.tmpl:3-5 | the if half, over whole runs: nothing that can happen makes an unbreakable plane breakable or takes it out of the DOWN state |
| HealthWatch.BreakingRun | templates/judge.rsc.tmpl:3-5 | the only-if half: what is known of a tuple with a public address expires, and then a row the script can read breaks it |
| HealthWatch.InFlightBreaksDown | templates/judge.rsc.tmpl:3-5 | what a run that started before can still do: SOFT opens a WATCH entry, FAST records evidence or under profile FAST puts the tuple into TEST, JUDGE gives up an OK entry |
| HealthWatch.ReachableBreak | templates/fast.rsc.tmpl:19-316 | a run with every command accepted: FAST starts while the plane is up, two probes are missed, the plane is down, and the next row leaves a TEST entry and an enabled marking rule |
| HealthWatch.BreakExample | templates/fast.rsc.tmpl:19-316 | the same run with every value filled in, for a connection to 8.8.8.8 |
| HealthWatch.LazyComesEnabled | templates/fast.rsc.tmpl:173-251 | new per-port rules are enabled, whatever the other rules are |
| HealthWatch.SecondMissTakesDown | templates/health.rsc.tmpl:120-188 | with accepted commands the second miss reaches the DOWN state from any state of the plane |
| HealthWatch.AnswerBringsUp | templates/health.rsc.tmpl:32-109 | an answered probe enables every rule, clears the misses, keeps all lists, and leaves no connection of a confirmed tuple on DIRECT |
| HealthWatch.OnlySecondMiss | templates/health.rsc.tmpl:111-124 | nothing but a missed probe with an unexpired miss for the same address takes the plane down |
| HealthWatch.MissesAreReal | templates/health.rsc.tmpl:113-118 | a recorded miss is a probe of the run for that address that was missed and neither expired nor was answered since |
| HealthWatch.DownNeedsTwoMisses | templates/health.rsc.tmpl:32-124 | whole runs: going down means two missed probes for one address with no answered probe and no expiry between |
| HealthWatch.TupleStep | templates/fast.rsc.tmpl:43-66 | one step of the whole plane changes a tuple exactly as its own observation, expiry or sweep says; rows for a VPN Direct address change nothing adaptive |
| HealthWatch.TupleIsolation | templates/judge.rsc.tmpl:46-81 | whole runs: the state of a tuple is the evidence machine's run over the tuple's own history; other tuples act on it only through the shared rule list, which decides whether its rules could be made |
| HealthWatch.SlowOnThePlane | templates/judge.rsc.tmpl:172-307 | the SLOW guarantee for every tuple of the whole plane whose own history wedges late or never |
| HealthWatch.PlaneKeepsOrder | templates/fast.rsc.tmpl:173-251 | every step of the plane, HEALTH included, keeps the mangle list ordered |
| Wire.MasksAreArithmetic | src/routeros_api.c:44-122 | on the values concerned the bit masks of both directions are comparisons, additions and subtractions |
| Wire.Announced | src/routeros_api.c:88-122 | the mask tests on the first byte announce exactly as many bytes as the encoder used |
| Wire.LenRoundTrip | src/routeros_api.c:44-122 | every length below 2^32 is encoded in as many bytes as its first byte announces and decodes to itself |
| Wire.PrefixFree | src/routeros_api.c:44-76 | no encoded length starts with another one |
| Wire.SentenceRoundTrip | src/routeros_api.c:132-171 | every sentence of at most 128 sendable words reads back word for word with the rest of the stream untouched; a longer one is refused |
| Wire.Socket.WriteAll | src/routeros_api.c:14-27 | everything is sent, in order, however send cuts it up and however often a signal interrupts it |
| Wire.Socket.ReadAll | src/routeros_api.c:29-42 | exactly the next bytes of the stream, however recv cuts them up; fails on a sound socket only if the stream is too short |
| Wire.Socket.SendWord | src/routeros_api.c:78-86 | length prefix and bytes, or nothing at all for a word of 2^32 bytes or more |
| Wire.Socket.RecvLen | src/routeros_api.c:88-122 | the length at the head of the stream; fails on a sound socket only if there is none |
| Wire.Socket.RecvWord | src/routeros_api.c:132-171 | the next bytes of the stream, as many as announced |
| Wire.Socket.RecvSentence | src/routeros_api.c:132-171 | the next sentence of the stream and no byte more |
| Wire.Store | src/routeros_api.c:145-169 | the new word goes behind the old ones within the capacity, which doubles when it is used up |
| Wire.Grow | src/routeros_api.c:145-169 | twice the room, old words kept |
| Session.GetAttr | src/routeros_api.c:215-225 | the value of the first matching attribute behind the reply word; none iff no word matches |
| Session.KeysAreExact | src/routeros_api.c:215-225 | keys without an equals sign never shadow one another, prefixes included |
| Session.Client.SendCommand | src/routeros_api.c:231-234 | the words and the terminator, or failure |
| Session.Client.Command | src/routeros_api.c:227-296 | reads exactly what draining the stream reads, with the result and context of the fold; a lost stream gives -1 |
| Session.OneReply | src/routeros_api.c:236-296 | whatever the callback returns, a command consumes exactly one well-formed reply through its final sentence |
| Session.FirstErrorWins | src/routeros_api.c:236-296 | the callback is fed exactly up to and including the first failing sentence; the result is its code there, -1 for a trap the callback lets pass, 0 if nothing fails |
| Session.RunOne | src/routeros_api.c:227-296 | a command in front of its reply leaves the stream at the next reply |
| Session.RunSession | src/routeros_api.c:227-296 | a sequence of commands, each with its own callback and context, pairs each with its own reply, failed ones included |
| Renderer.ReplaceAll | src/renderer.c:98-117 | the buffer allocated with wrapping size arithmetic has exactly the size needed, and all of it is written: the substituted text and the terminator |
| Renderer.CountOccurrences | src/renderer.c:98-106 | counts the non-overlapping occurrences left to right |
| Renderer.Fill | src/renderer.c:107-116 | fills the buffer front to back, no byte left out or written past the end |
| Renderer.WrappedLength | src/renderer.c:107-108 | a difference that wraps below zero still gives the right length modulo 2^64 |
| Renderer.ReplaceIsJoin | src/renderer.c:98-117 | the source is its chunks joined by the needle, the result the same chunks joined by the value |
| Renderer.ChunksAreFree | src/renderer.c:98-117 | no chunk contains the needle, so every occurrence was replaced |
| Renderer.ReplaceLength | src/renderer.c:98-117 | length of the result from the number of occurrences, for shorter and longer values |
| Renderer.JunctionsExactly | src/renderer.c:168-228 | the condition on where literals and values meet holds iff the filled template has no two opening braces in a row |
| Renderer.OnePass | src/renderer.c:168-228 | one pass over a partly filled template fills exactly its own placeholder, provided no literal or value contains two opening braces in a row and none arise where they meet |
| Renderer.PassesAreSimultaneous | src/renderer.c:168-228 | under the same condition the sequential passes equal one simultaneous substitution |
| Renderer.PassesExactly | src/renderer.c:168-228 | the passes equal the substitution and leave no two opening braces in a row iff no two braces meet |
| Renderer.NothingLeft | src/renderer.c:168-228 | no placeholder and no pair of opening braces is left |
| Renderer.PlaceholdersAreGood | src/renderer.c:168-228 | the eight placeholders meet the conditions of the two theorems |
| Renderer.BraceCounterexample | src/renderer.c:168-228 | a value beginning with a brace forms a placeholder the template never had, which the next pass replaces |
| Renderer.JunctionCounterexample | src/renderer.c:168-228 | so does a value ending in a brace in front of a literal that begins with one, and an empty value between two such literals: the passes give xv where the substitution gives x{{B}} |
| Renderer.LanMatchSnippet | src/renderer.c:119-134 | the printed LAN test fits its buffer for every number of networks and is what a join of the tests is |
| Renderer.PutAll | src/renderer.c:119-134 | the loop prints all entries, each but the first behind a separator, within its share of the buffer |
| Renderer.SnippetIsTame | src/renderer.c:119-134 | the LAN test is a value the simultaneity theorem accepts |
| Renderer.MaskFits | src/renderer.c:51-55 | every mask prints in at most 15 characters |
| Router.ElapseChain | src/state_cleanup.c:29-47 | two spells of waiting make one, so sleeps and retries never add behaviour |
| Cleanup.RemoveIds | src/state_cleanup.c:287-332 | with accepted commands none of the ids is left; in any case only objects of the kind went |
| Cleanup.Inspect | src/state_cleanup.c:334-392 | a successful scan shows every object of the kind; only the connection table is scanned again, 20 times at most |
| Cleanup.VerifyEmpty | src/state_cleanup.c:392-564 | yes only if a scan found nothing; what the others find is removed, the last excepted |
| Cleanup.CleanupMatching | src/state_cleanup.c:334-564 | success means the kind is empty at the end, whatever happened meanwhile; cooperation and a sealed kind mean success; the total saturates |
| Cleanup.CleanupLegacyInto | src/state_cleanup.c:716-739 | legacy lists first, marks only after they are empty |
| Cleanup.CleanupRuntime | src/state_cleanup.c:759-798 | with schedulers paused and jobs idle a return of 0 means all four namespaces are empty although packets kept being marked; nothing outside them was removed; a clean router costs four scans |
| Cleanup.CleanStays | src/state_cleanup.c:759-798 | and they stay empty under every later environment step while the scripts rest |
| Cleanup.MarksStayAwayExactly | src/state_cleanup.c:759-798 | removed marks stay away iff no enabled rule finds a destination in its list, so lists must go before marks |
| Cleanup.SealedEmpties | src/state_cleanup.c:334-564 | once nothing new can come, removing what one scan showed empties the kind |
| Cleanup.DisableAdaptiveMangle | src/state_cleanup.c:895-947 | success means every AUTO-AWG rule is disabled, judged by a fresh print and not by the answers; no rule appears or disappears |
| Cleanup.AllShownDisabled | src/state_cleanup.c:856-893 | yes only if no AUTO-AWG rule is enabled |
| Cleanup.DisableAll | src/state_cleanup.c:812-854 | every rule is tried, refusals notwithstanding |
| Promote.LookupRetry | src/promote.c:113-120 | what it finds is there; on an obliging router it finds what is there |
| Promote.VerifySource | src/promote.c:212-218 | yes only for a valid script of this length and fingerprint |
| Promote.VerifyStage | src/promote.c:220-242 | yes only if all four staged scripts are the desired ones |
| Promote.ReadProduction | src/promote.c:333-347 | the four sources and flags as they are, each scheduler started by its own name |
| Promote.Replace | src/promote.c:275-286 | success means the backup reads back; nothing but that name is touched in any case |
| Promote.CreateBackups | src/promote.c:275-286 | success means all four backups are of the production just read; nothing but backups is touched in any case |
| Promote.Pause | src/promote.c:354-361 | success means all four schedulers are disabled; nothing but their flags changes |
| Promote.WaitJobsIdle | src/promote.c:258-267 | yes only if no managed job is running; at most 50 polls |
| Promote.RestoreSchedulers | src/promote.c:269-273 | exactly four commands, whose answers are ignored; if they are taken the flags are back |
| Promote.RestoreSources | src/promote.c:288-297 | goes on after a failure; success means all four read back; every write meets a router at rest |
| Promote.WriteSources | src/promote.c:369-383 | stops at the first failure; success means all four read back; every write meets a router at rest |
| Promote.CleanOrFailOpen | src/promote.c:385-425 | clean, or, on a router that obliges from the first restore write on, old sources back and every adaptive rule disabled; schedulers paused in either case |
| Promote.RestoreAndMute | src/promote.c:401-425 | the old sources and then the rules; both succeed on a router that obliges from here on |
| Promote.WriteOrUndo | src/promote.c:369-383 | four good writes, or the old sources back as far as the router took them and the schedulers resumed; says for every refused write where the recovery starts |
| Promote.RestoredExactly | src/promote.c:288-297 | after a restore the old sources are there iff each of its four writes was taken and kept the text, or was refused where the text had never been replaced |
| Promote.Commit | src/promote.c:369-439 | what the part after the pause can end as: written and clean, old sources with flags put back, or paused and fail-open; after a failure the last four production writes are the restore, and a router that obliges from the first of them on makes restore and disabling succeed |
| Promote.PromoteRun | src/promote.c:315-452 | every run: each production source write happens with schedulers off and no managed job; all-new sources are resumed only from a recorded state that was at rest, clean and read back; every run that reaches the pause on a router that obliges from the start of the recovery on ends in one of the three ways, whatever happened before |
| Promote.EndsInThreeWays | src/promote.c:315-452 | old sources with old flags, new sources from a clean start with old flags, or old sources paused with every AUTO-AWG rule disabled |
| Promote.MixedResume | src/promote.c:369-383 | the failing family: second write refused, first restore write refused; the schedulers run again over one new source and three old ones |
| Promote.MixedExample | src/promote.c:369-383 | one such router, from four paused scripts |
| Promote.ReadBackups | src/promote.c:465-488 | the four backups and flags, only if all prerequisites are there |
| Promote.RollbackCommit | src/promote.c:508-631 | clean first, then the sources; every failure leaves the schedulers paused, and every AUTO-AWG rule disabled if nothing is refused from the first disabling command on or, after a failed write, from that write on |
| Promote.RollbackRun | src/promote.c:454-660 | every run: as for the promotion, and success means the production sources are the backups; accepted recovery commands leave it paused and muted |
| Promote.PromoteThenRollback | src/promote.c:315-660 | a promotion and a rollback that both return 0 put back the sources of before, up to length and fingerprint |
| Promote.FlagsBack | src/promote.c:269-273 | four flags put back are the schedulers put back, interval and event included |
| Staging.RemoveNameExact | src/stage.c:104-120 | success means the name is gone, provided lookups show what is there; nothing else is touched |
| Staging.AddAll | src/stage.c:202-235 | success means all four copies read back |
| Staging.StageRun | src/stage.c:170-259 | all four staged and verified, or, when it says so and lookups were truthful, none of the four left; production and backups untouched in any case |
| Staging.Deploy | src/promote.c:275-286 | staging and promoting: success means the new bundle is in production and the old production in the backups |
| Staging.DeployAll | src/promote.c:275-286 | any number of successful updates: the backups are always of the production immediately before, after a single one of what was there at the start |
| Install.RulesInOrder | src/install.c:63-78 | the two rule tables together are the order the rule list must have |
| Install.CountPresent | src/install.c:279-309 | the number of objects present at the start, although the surroundings move on |
| Install.TakeCensus | src/install.c:279-309 | sixteen means all managed objects, zero and zero means none of the twenty |
| Install.Installer.CreateEach | src/install.c:433-467 | objects come disabled and in order, each read back; no scheduler is enabled in any state met or left |
| Install.Installer.VerifyScript | src/install.c:181-191 | yes only for the desired text; at most 15 reads |
| Install.Installer.CreateNat | src/install.c:469-558 | a NAT rule only if the tunnel has none; says when an undo has to look for one |
| Install.Installer.Build | src/install.c:433-567 | all objects made and disabled, foreign ones untouched |
| Install.Installer.ClearBeforeStart | src/install.c:569-610 | adaptive residue gone before anything is enabled; schedulers asleep at every command of the cleanup |
| Install.Installer.SwitchOn | src/install.c:612-624 | rules before schedulers; at every state met or left an enabled scheduler finds everything in place |
| Install.Installer.EnableSchedulers | src/install.c:620-624 | started on a complete installation, which stays complete whatever the started scripts do; a refusal stops it right there with the schedulers before it on |
| Install.Installer.UndoOne | src/install.c:311-338 | with accepted commands the object is gone; one whose lookup shows it stays, unchanged, iff its removal is refused |
| Install.Installer.Undo | src/install.c:311-338 | schedulers go first: whatever is refused, no state of it is half-on if the schedulers were paused at its start or are once their turn is over; an object stays iff its removal was refused; nothing foreign is touched |
| Install.InstallFresh | src/install.c:412-652 | over all states met and left by any command, the cleanup's and the undo's included: an enabled managed scheduler implies all four scripts verified and all rules in place, iff the undo, if there is one, finds the schedulers paused after its at most eight first commands or everything still complete at the end; a failing exit with accepted removals leaves none of the twenty objects |
| Install.InstallRun | src/install.c:346-652 | the whole install: nothing is changed unless none of the objects was there; never half-on, with the same exact condition for the undo; undone when it fails; the state before the first scheduler starts was at rest, clean and fully enabled; the only other removals are of adaptive objects |
| Install.HalfOn | src/install.c:346-652 | the failing family, as a run of the whole install: the 84 commands up to the schedulers are accepted, enabling the second scheduler is refused and so is removing the first; the first scheduler is left enabled and nothing else of ours |
| Install.HalfOnExample | src/install.c:346-652 | such a run on an empty router that refuses commands 87 and 89 |
| Gc.OwnsScripts | src/gc.c:517-558 | yes only if the four production scripts are the desired ones, by length and fingerprint |
| Gc.SchedulerGate | src/gc.c:562-624 | passes iff, on a router at a standstill, the scheduler is enabled, starts its own script and is not running |
| Gc.RuntimeGate | src/gc.c:491-677 | skips without ownership; passes iff, on a router at a standstill, scripts, schedulers and the eight fixed rules are as they should be |
| Gc.FindsOrphan | src/gc.c:1382-1450 | a well-formed rule counts as orphan only if the last two commands both met an empty backing list; a rule with missing attributes never does |
| Gc.RemoveLazy | src/gc.c:1349-1380 | one removal command, on a rule the two reads before it found useless; failure if the rule is still shown |
| Gc.ProcessLazy | src/gc.c:1382-1481 | at most the budget; on a router at a standstill exactly min(budget, orphans) go, so live rules starve nothing |
| Gc.CollectLazy | src/gc.c:1201-1281 | never more than 128 rows, and all lazy rules of the family are among them |
| Gc.FindsStale | src/gc.c:1849-1930 | a connection counts as stale only if the last two commands both missed its entry |
| Gc.AttemptMarks | src/gc.c:1849-1968 | at most the budget; on a router at a standstill exactly min(budget, stale) go |
| Gc.VerifyAbsent | src/gc.c:1812-1847 | yes only if none of the attempted connections is left; at most 20 prints |
| Gc.ProcessMarks | src/gc.c:1849-1968 | cleared connections are counted only once their absence is verified |
| Gc.CollectMarks | src/gc.c:1575-1680 | at most three scans; all marked connections of the family, never more than 128 |
| Gc.FailSafe | src/gc.c:746-796 | every scheduler and every adaptive rule is tried; what it reports paused or disabled is |
| Gc.Collect | src/gc.c:2026-2140 | at most eight removals of rules, then at most four of connections, so the final budget check cannot fail |
| Gc.RunOnce | src/gc.c:1974-2162 | every run, failing ones included: at most twelve removal commands, each of a useless rule or stale connection found so by the two commands before it, never of an address-list entry; nothing is written unless the production scripts are the desired ones |
| Gc.ExactlyCounts | src/gc.c:1382-1481 | a full share is min(budget, candidates), and that many fewer are left |
| Gc.SweepKeeps | src/gc.c:1974-2162 | a run keeps every live rule and connection, and the conditions under which the next run passes |
| Gc.RunMany | src/gc.c:1974-2162 | n runs on a router at a standstill leave of each family exactly what exceeds n budgets, and everything alive |
| Gc.NothingLeft | src/gc.c:1974-2162 | after ceil(largest family / budget) runs no orphan and no stale connection is left |
| DirectPolicy.NormalIpForm | src/direct.c:100-185 | an accepted address is a dotted quad and a prefix length of at most 32 |
| DirectPolicy.NormalIpTwice | src/direct.c:100-185 | a stored address is accepted again unchanged and fits its line |
| DirectPolicy.ValidLabel | src/direct.c:187-223 | a label is accepted iff it is 1 to 63 letters, digits and hyphens without a hyphen at either end, as in section 2.3.4 of RFC 1035 and section 2.1 of RFC 1123 |
| DirectPolicy.NormalizeDomain | src/direct.c:225-316 | the in-place buffer code strips dots, lowers the case and accepts iff every label between two dots is valid and there are at least two |
| DirectPolicy.NormalDomainTwice | src/direct.c:225-316 | a stored domain is lower-case, at most 253 characters, cut into valid labels by its dots, and accepted again unchanged |
| DirectPolicy.LabelsFrom | src/direct.c:278-311 | walking from dot to dot checks every label |
| DirectPolicy.SplitGlues | src/direct.c:278-311 | cutting at the dots loses nothing |
| DirectPolicy.Table.Find | src/direct.c:508-548 | found iff the entry is in the table |
| DirectPolicy.Table.RemoveAt | src/direct.c:1378-1386 | the shift closes the gap, order kept |
| DirectPolicy.Table.Load | src/direct.c:340-442 | reads the file line by line to the table the text stands for; fails only on an entry too many or a bad value |
| DirectPolicy.Table.Save | src/direct.c:444-506 | the header and one line per entry, in order |
| DirectPolicy.SaveLoad | src/direct.c:340-506 | every policy is unchanged by saving and loading |
| DirectPolicy.LinesRoundTrip | src/direct.c:340-506 | saved lines are read back one by one, each adding its entry |
| DirectPolicy.Store.Add | src/direct.c:1184-1308 | the stored policy stays duplicate-free, normalised and at most 256 long; grows by exactly the normalised entry or not at all, with the reason |
| DirectPolicy.Store.Remove | src/direct.c:1310-1419 | likewise; exactly the entry goes, order kept |
| DirectSync.RemoveMatching | src/direct.c:643-726 | objects of others stay in order in any case; with accepted commands and at most 512 objects none of ours is left |
| DirectSync.RemovalLeavesOthers | src/direct.c:643-726 | removing the collected ids one by one leaves exactly the objects of others |
| DirectSync.AddBypass | src/direct.c:797-911 | one enabled bypass rule in front of the first managed prerouting rule |
| DirectSync.AddEntries | src/direct.c:1080-1112 | addresses to the address list and domains to the static names, in policy order |
| DirectSync.SyncPolicy | src/direct.c:990-1137 | old policy out, new policy in, if the removals are accepted and it reports success; it fails only on a refused command or a missing target, and the answer to the cache flush does not matter |
| DirectSync.Sync | src/direct.c:990-1137 | with the removals accepted a successful run leaves exactly the stored policy on the router and one bypass rule iff it is not empty, everything else as before |
| DirectSync.SyncTwice | src/direct.c:990-1137 | doing it again changes ids only |
| DirectSync.SyncedIsSmall | src/direct.c:643-726 | a synchronised router has at most 512 of our objects in each table, so it can be synchronised again |
| DirectSync.SyncAgain | src/direct.c:990-1137 | two successful synchronisations in a row, their removals accepted, leave the policy, and the second changes ids only |
| DirectSync.BypassTwice | src/direct.c:797-911 | taking the bypass rule away gives back the list it was put into |
| DirectSync.SyncedBypasses | src/direct.c:797-911 | a synchronised router keeps its rule order and sends every packet to a VPN Direct address to the target table |

## Left out

- Sockets, address lookup, login, files, locks, signals, sleeping and allocation failure: the stream is a byte sequence, the policy file a value, a sleep a step of the surroundings.
- `src/main.c`, `src/config.c`, `src/telemetry.c`, `src/routerlog.c`, `src/diag.c`, `src/target.c`, `src/apply.c`, `src/validate.c`, prompts, printing and log switches: they would only add easy members. The outcome of the source validation before an install is a parameter.
- RouterOS itself: DNS resolution, timers, ping and the detectors' rates are inputs of the steps; a refused command has no effect, and a print shows one moment. Address lists, rules and connections in a print may include ones that are just gone, but none is left out; lookups of scripts and schedulers may miss new ones.
- The fingerprint is any function of the text; sources are compared by length and fingerprint, as the program does.
- Comments and list names are structured values outside `Namespace`, which proves the string matchers exact. Lazy rules whose comment does not parse are therefore not modelled; those whose attributes contradict their comment are.
- Scripts and schedulers are addressed by name, where the program uses the id it has just looked up.
- Connections have a protocol, a port and a destination; the collector's handling of rows without them is not modelled.
- `src/gc.c:2168-2268`, the daemon tick around a run, and the script job counts beyond "is it running".
- strtoul, sscanf, inet_pton and inet_ntop are replaced by a plain decimal grammar: no signs, no leading blanks.
- Evidence.SlowSafety: asks that no wedge comes before an answered re-check, because the code breaks the order otherwise; WedgesLateExactly says that nothing less will do.
- HealthWatch.FailOpen: starts when no flow script is in flight; FailOpenExactly says when one in flight is harmless. The older address-only lists are taken to be empty on the plane.
- Wire.Socket.SendWord: uses the encoder on numbers; MasksAreArithmetic states its three masks on 32-bit words.
- HealthWatch.TupleIsolation: starts from an empty state of the tuple, which a promotion establishes; one profile per run.
- RuleOrder.ListedIsMarkedAndRouted: rules of others are taken not to match the packet.
- Promote.RestoreSchedulers: no claim when one of the four commands is refused, since the program ignores the answers.
- Promote.CreateBackups: no claim about which backups are new after a failure.
- Install.InstallRun: after a refused removal some of our objects stay, as `Install.Installer.Undo` says; rule positions are proved in `RuleOrder`, not in `Router`, where rules are a map.
- Gc.RunOnce: a removal counts as a command issued, accepted or not; a connection marked by a fixed rule from an address-only list counts as stale, as in the code.
- Gc.RunMany: exact progress needs a router on which nothing else happens; safety in `Gc.RunOnce` does not.
- DirectSync.Sync: no one else changes the three tables during the run, and the DNS resolver adds no addresses; more than 512 old objects in one table are removed only in part.
- Session.GetAttr: the value is everything behind the key, where a C reader stops at the first NUL byte; reply words are compared up to that byte, as strcmp does. Words to be sent hold no NUL byte in the program.
- Session.Client.Command: promises the reply only on a socket that fails at the end of the stream and not before.
