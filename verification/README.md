# VCG-Console in Dafny

A model of the stateful and combinatorial parts of the console's software, with proofs of what each of them promises
over all inputs, all runs or all reachable states. `dafny verify dfyconfig.toml` checks the whole project.

| Part of the system | Modules |
|---|---|
| Contour tracing of the logo mask | `Pixels`, `Components`, `Boundary`, `JunctionOrder`, `Contours`, `ContourArea`, `Collinear` |
| Crash-recoverable accessibility preferences | `PreferenceDisk`, `AccessibilityStore`, `AccessibilityRecovery`, `PreferenceRuns`, `PreferenceHistories` |
| Strict JSON pre-scan | `JsonGrammar`, `StrictJson`, `StrictJsonCorrect`, `StrictJsonSpelling` |
| Player session | `PlayerSession`, `PlayerSessionRuns`, `PlayerSessionGuarantees`, `PlayerSessionOutcomes`, `PlayerSessionController` |
| Developer trust registry and session | `CanonicalJson`, `DeveloperTrust`, `DeveloperTrustRuns`, `DeveloperTrustGuarantees`, `DeveloperTrustRefusals`, `DeveloperSession` |
| Developer artifact intake | `ArtifactStore`, `ArtifactRuns`, `ArtifactDurability` |
| Camera tracker | `Tracker`, `TrackerRuns`, `TrackerOutcomes`, `MediaPipeTracker` |
| Two-player obstacle round | `ObstacleRound`, `ObstacleRuns`, `ObstacleOutcome`, `ObstacleEncounters`, `ObstacleTie`, `TwoPlayerObstacleRound` |
| Local leaderboard | `Leaderboard` |
| Library page order | `Lexicographic`, `LibraryOrder` |
| Gesture holds, latches and zones | `ActionEngine`, `ActionRuns`, `ActionOutcomes`, `GestureEngine` |
| Bluetooth identities | `Bluetooth`, `BluetoothService`, `BluetoothTexts` |

`Alphabets`, `Options`, `Collections` and `Numbers` hold what they share.

## How the parts are built

Objects whose methods update fields are classes with those fields. Each of their methods is proved equal to a function
from the old state to the new one (where calls outside may fail, to stay within a relation over the states passed
through), and these carry the theorems: an invariant that every command keeps, and statements over whole runs, which
are sequences of commands. What each call comes to, and when it is refused, is stated a second time in the terms its
callers see (the `Outcomes` modules and their like), with limits and characters written out. Calls outside that may fail
are counted, so that success is owed whenever none did. Where the source visits a map, the class visits it in arbitrary order, so the proofs do not
rest on an order.

- *Contour tracing* works on integer grid coordinates, where the threshold of the collinearity test is an exact zero
  test. The point-wise pieces (balance at a lattice point, cancellation of interior edges, turns) add up to the
  statements about whole masks.
- *Preferences* keep, for every name, the states it had since the last synchronization. A crash may keep any of them
  for each name independently (`Scattered`) or, on a file system that orders directory updates, one state of the whole
  directory (`Ordered`). Every file-system call may fail, and every state passed through is logged and judged. A run
  goes on after operations that failed and restarts in place, with whatever is not synchronized still pending, or after
  a loss of power; either may strike at any disk step, of an opening too. `Standing` is what the run then still owes the
  user, and its log holds one entry for each command.
- *The trust registry* is encoded to its real JSON text. The hash is an arbitrary function; the only hypothesis about
  it is that the texts met on a run do not collide with the registry committed at the time. The parser is an arbitrary
  function that reads back every canonical text. The privileged ceremony that protects a registry is outside the
  program; it is taken to protect only the registry that was published last (`DeveloperTrustGuarantees.Do`).
- *The artifact store* may fail between any two steps of an operation and several transfers with equal receipts may
  interleave. A file about to be published is taken not to collide with what its transfer hashed. When power is lost,
  directory updates persist in the order they were made, a rename being one update, up to any point after the last
  synchronization; file contents persist only when synchronized. That acknowledged publications survive needs one more
  hypothesis: no two transfers with a live session have the same receipt. It follows from what the session authority
  keeps when there is one authority at a time (`ArtifactDurability.AdmittedOnceIsSole`).
- *The tracker* is cut at every `await`. Suspended starts, frame callbacks, bitmaps and worker answers may continue in
  any order, each as one step.
- *Times* that are JavaScript numbers are real numbers, with a separate value for what is not finite.

## Where the code and its description differ

- An acknowledged save survives crashes exactly if no reset marker may still be there: a save after a reset that failed
  can be wiped at the next open (`PreferenceDisk.AcknowledgedIffUnmarked`; the steps in `AcknowledgedSaveWiped`).
- A second reset that finds the marker of a failed one deletes before that marker is durable, and a superseded
  generation can come back (`PreferenceDisk.UnsettledResetIffSuperseded`; the steps in `SupersededReturns`), even one
  that an unsynchronized cleanup had already removed (`LeftoverReturns`).
- A process that opens after a killed or failed save deletes the durable generation although the newer one may not be
  synchronized, and a loss of power can then leave neither. It is safe exactly when nothing was stored before or the
  newest generation is in every state since the last synchronization (`PreferenceDisk.CleaningSafeIff`; the steps in
  `ReopenedUnsynchronized`), and always where directory updates persist in order (`CleaningOrderedSafe`).
- A reset that fails at its last synchronization leaves a marker that the next process does not see but a loss of power
  can bring back, over a save acknowledged meanwhile (the steps in `PreferenceDisk.MarkerReturns`; exact condition in
  `PreferenceHistories.PromiseKeptIff`).
- Failed cleanups can leave more than four entries after a crash that scatters names, exactly when more than four names
  were in play (`PreferenceDisk.NeverRefusedIff`, `PreferenceRuns.SaveNeverRefusedIff`; the steps in `ScatteredOverflow`).
- A player session recovers silently after the documented deadline when no observation fell between the deadline and
  the return (`PlayerSessionGuarantees.LateRecoveryIsSilent`; exact condition in `DeadlineHonouredIff`).
- A clock regression while recovering from a pause leads to a pause without an owner
  (`PlayerSessionGuarantees.PausedWithoutOwner`; exact condition in `OwnerKeptIff`).
- Collinear-point removal fails exactly on rings of which some pass over more than three points leaves nothing
  (`Collinear.EmptiedIff`); no traced loop is one (`Collinear.SimplifiedTracedLoop`).
- With 10000 or more starting lives the ranking number no longer orders results by points first
  (`ObstacleOutcome.RankIsLexicographicIff`), and rounds can end without the right winner (`ObstacleTie.WinnerIsRightIff`).
- Controller identities beyond nine digits are listed but can no longer be selected (`Bluetooth.IdSelectableIff`).
- The tracker's two unavailable-backend errors, the tracer's open-contour error, the registry's duplicate-key error and
  the sixteen-device error are dead code.

## Model

| member | source | states |
|---|---|---|
| Components.ConnectedComponents | Randroids-Dojo-VCG-Console-Case/Scripts/trace_actual_logo.py:51-70 | for every mask, the lists returned are exactly the 4-connected classes of the filled pixels, each pixel once |
| Components.FloodFill | Randroids-Dojo-VCG-Console-Case/Scripts/trace_actual_logo.py:59-69 | one flood fill lists exactly the class of its seed and marks exactly those pixels as visited |
| Components.TogetherIffConnected | Randroids-Dojo-VCG-Console-Case/Scripts/trace_actual_logo.py:51-70 | two pixels are in one list exactly when a path of filled pixels joins them |
| Components.KeepPrintableComponents | Randroids-Dojo-VCG-Console-Case/Scripts/trace_actual_logo.py:73-79 | the result holds exactly the pixels whose class has at least the minimum size |
| Components.FillSmallHoles | Randroids-Dojo-VCG-Console-Case/Scripts/trace_actual_logo.py:82-91 | the result adds exactly the background classes that stay off the border and within the maximum size |
| Pixels.BorderIff | Randroids-Dojo-VCG-Console-Case/Scripts/trace_actual_logo.py:82-91 | a background class is open at the border exactly when a neighbour of one of its pixels lies outside the image |
| Components.FiltersAreMonotoneAndIdempotent | Randroids-Dojo-VCG-Console-Case/Scripts/trace_actual_logo.py:73-91 | keeping only shrinks, filling only grows, and doing either twice changes nothing more |
| Pixels.ClassSurvives | Randroids-Dojo-VCG-Console-Case/Scripts/trace_actual_logo.py:51-91 | deleting whole classes leaves every surviving class exactly as it was |
| Pixels.KeptTwice | Randroids-Dojo-VCG-Console-Case/Scripts/trace_actual_logo.py:73-79 | keeping by one bound and then another is keeping once by the stricter one |
| Pixels.OpenTwice | Randroids-Dojo-VCG-Console-Case/Scripts/trace_actual_logo.py:82-91 | filling by one bound and then another is filling once by the larger one |
| Boundary.BorderBalanced | Randroids-Dojo-VCG-Console-Case/Scripts/trace_actual_logo.py:203-218 | at every lattice point as many boundary edges arrive as leave, for every mask |
| Boundary.CanContinue | Randroids-Dojo-VCG-Console-Case/Scripts/trace_actual_logo.py:228-231 | whatever part of a balanced edge set a walk has used, it can go on until it is back at its start |
| JunctionOrder.NeverStuck | Randroids-Dojo-VCG-Console-Case/Scripts/trace_actual_logo.py:228-241 | with junctions resolved in any order, an allowed unused edge remains while a loop is open: the open-contour error is dead code |
| JunctionOrder.StopsWhenAllUsed | Randroids-Dojo-VCG-Console-Case/Scripts/trace_actual_logo.py:220-246 | whatever the choices, tracing takes at most one step per edge and stops exactly with all loops closed and every edge used once |
| JunctionOrder.LeftoverBalance | Randroids-Dojo-VCG-Console-Case/Scripts/trace_actual_logo.py:222-245 | the unused edges stay balanced but for the two ends of the open loop |
| Boundary.NoReversal | Randroids-Dojo-VCG-Console-Case/Scripts/trace_actual_logo.py:203-218 | no boundary edge turns straight back on another, so junctions offer straight on, left or right only |
| Boundary.TightestStaysInClass | Randroids-Dojo-VCG-Console-Case/Scripts/trace_actual_logo.py:232-241 | the tightest continuation stays on the same 4-connected component even where two components touch at a corner |
| Contours.CandidateExists | Randroids-Dojo-VCG-Console-Case/Scripts/trace_actual_logo.py:229-231 | an open walk of the tracer always finds a candidate |
| Contours.NextEdge | Randroids-Dojo-VCG-Console-Case/Scripts/trace_actual_logo.py:228-243 | the continuation is the unused edge that turns least where the walk stands, and it follows the same component |
| Contours.TraceLoop | Randroids-Dojo-VCG-Console-Case/Scripts/trace_actual_logo.py:222-245 | each traced loop starts with the least unused edge, always takes the tightest turn, stops when it is first back, uses each of its edges once and goes round a single component |
| Contours.BoundaryLoops | Randroids-Dojo-VCG-Console-Case/Scripts/trace_actual_logo.py:198-246 | for every mask, the loops are closed, together use every boundary edge of the padded mask exactly once, each follows one component, and each starts and turns as described given the loops before it |
| Contours.TraceDetermined | Randroids-Dojo-VCG-Console-Case/Scripts/trace_actual_logo.py:220-246 | these properties have exactly one answer: the loops, their order and where they start depend on the mask alone |
| Contours.CollectEdges | Randroids-Dojo-VCG-Console-Case/Scripts/trace_actual_logo.py:201-220 | the edge table lists exactly the boundary edges by their start points |
| Boundary.BorderTotal | Randroids-Dojo-VCG-Console-Case/Scripts/trace_actual_logo.py:198-274 | the shoelace terms of all boundary edges sum to twice the number of filled pixels, interior edges cancelling in pairs |
| ContourArea.TracedTotal | Randroids-Dojo-VCG-Console-Case/Scripts/trace_actual_logo.py:198-274 | the signed areas of all loops together equal the number of filled pixels, for every mask |
| ContourArea.TracedMaskTotal | Randroids-Dojo-VCG-Console-Case/Scripts/trace_actual_logo.py:198-274 | so the loops of the padded mask enclose exactly as many pixels as the mask has |
| ContourArea.ComponentArea | Randroids-Dojo-VCG-Console-Case/Scripts/trace_actual_logo.py:198-274 | the loops around one component enclose exactly that component's pixels |
| ContourArea.TracedArea | Randroids-Dojo-VCG-Console-Case/Scripts/trace_actual_logo.py:198-274 | the same for any union of components |
| Collinear.Pass | Randroids-Dojo-VCG-Console-Case/Scripts/trace_actual_logo.py:255-267 | one pass keeps exactly the points where the old ring turns and reports whether it dropped any |
| Collinear.BendIsArea | Randroids-Dojo-VCG-Console-Case/Scripts/trace_actual_logo.py:255-267 | the test for a turn is twice the signed area of the triangle of the three points |
| Collinear.RemoveCollinear | Randroids-Dojo-VCG-Console-Case/Scripts/trace_actual_logo.py:249-268 | terminates for every input; yields the simplified ring closed up, or the empty-ring fault exactly when nothing is left |
| Collinear.SimplifiedTurns | Randroids-Dojo-VCG-Console-Case/Scripts/trace_actual_logo.py:254-268 | when more than three points remain, no three consecutive ones are collinear |
| Collinear.PassKeepsArea | Randroids-Dojo-VCG-Console-Case/Scripts/trace_actual_logo.py:255-267 | a pass over a grid ring keeps its signed area, wherever the ring starts |
| Collinear.PassLeavesCorners | Randroids-Dojo-VCG-Console-Case/Scripts/trace_actual_logo.py:254-267 | one pass is enough on a grid ring: a second changes nothing |
| Collinear.SimplifiedGridRing | Randroids-Dojo-VCG-Console-Case/Scripts/trace_actual_logo.py:249-268 | a grid ring simplifies to its corners with the same signed area and a turn at every point |
| Collinear.SimplifiedTracedLoop | Randroids-Dojo-VCG-Console-Case/Scripts/trace_actual_logo.py:198-268 | simplifying any loop the tracer produces succeeds, keeps its signed area and leaves no three collinear points in a row |
| Collinear.EmptiedIff | Randroids-Dojo-VCG-Console-Case/Scripts/trace_actual_logo.py:254-268 | a ring is emptied, so that the final indexing fails, exactly when some pass over more than three points finds no corner |
| Collinear.FlatSpikeVanishes | Randroids-Dojo-VCG-Console-Case/Scripts/trace_actual_logo.py:254-268 | a closed flat spike is such a ring |
| PreferenceDisk.GuardedSafe | native/vcg-host/src/accessibility.rs:244-350 | any crash of a guarded disk reopens as the stored document, a complete later attempt, defaults where a reset marker may survive, or a refusal; never torn or superseded data |
| PreferenceDisk.OrderedNeverRefused | native/vcg-host/src/accessibility.rs:553-572 | with directory updates persisted in order the directory never exceeds its bound, so the refusal cannot happen |
| PreferenceDisk.NeverRefusedIff | native/vcg-host/src/accessibility.rs:553-572 | under crashes that persist names in any order, the refusal cannot happen exactly while at most four names are in play |
| PreferenceDisk.NeverOverfullIff | native/vcg-host/src/accessibility.rs:553-572 | no crash leaves more than four entries exactly when at most four names occur in the states since the last synchronization |
| PreferenceDisk.ScatteredOverflow | native/vcg-host/src/accessibility.rs:347-348 | the disk of a save after failed cleanups, built from its steps: each state has at most four entries, yet a crash that scatters names leaves more, which reopening refuses |
| PreferenceDisk.AcknowledgedIffUnmarked | native/vcg-host/src/accessibility.rs:313-371 | an acknowledged document survives every crash, scattered or ordered, exactly when no possible marker state is present; save never looks at the marker |
| PreferenceDisk.AcknowledgedSaveWiped | native/vcg-host/src/accessibility.rs:313-371 | the steps of a failed reset and of a complete acknowledged save after it lead to a disk where that save can be wiped |
| PreferenceDisk.UnsettledResetIffSuperseded | native/vcg-host/src/accessibility.rs:358-480 | deleting every entry of a disk whose marker may still be lost is harmless under every crash exactly when no superseded generation with another document is on that disk |
| PreferenceDisk.SupersededReturns | native/vcg-host/src/accessibility.rs:341-371 | the steps of a save whose cleanup failed, a reset that could not synchronize its marker and a second reset lead from a durable document back to the one before it |
| PreferenceDisk.CleaningSafeIff | native/vcg-host/src/accessibility.rs:244-299 | deleting the older generations of a directory found unmarked but not synchronized, as opening it in place does, is safe under crashes that scatter names exactly when nothing was stored before or the newest generation is in every state since the last synchronization |
| PreferenceDisk.CleaningOrderedSafe | native/vcg-host/src/accessibility.rs:244-299 | where directory updates persist in order the same deletion is safe without any condition |
| PreferenceDisk.ReopenedUnsynchronized | native/vcg-host/src/accessibility.rs:313-350 | the steps of a save killed after its rename and of the next process reporting it and deleting the durable document lead to a disk where a crash can lose both |
| PreferenceDisk.MarkerReturns | native/vcg-host/src/accessibility.rs:358-371 | the steps of a reset failing at its last synchronization, a new process finding no marker and an acknowledged save lead to a disk where a crash can wipe that save |
| PreferenceDisk.LeftoverReturns | native/vcg-host/src/accessibility.rs:455-551 | the steps of an opening whose cleanup was not synchronized and two resets bring back a superseded document that was never reported, if names may scatter, and cannot if updates persist in order |
| PreferenceRuns.SettledSaveIsAtomic | native/vcg-host/src/accessibility.rs:313-350 | a crash at any step of a save on a settled store reopens as what it reported before or as the new document |
| PreferenceRuns.SaveNeverRefusedIff | native/vcg-host/src/accessibility.rs:313-350 | whether a crash during a save can make the store refuse to open is decided before the save: exactly when the entries and the two names of the save are more than four |
| PreferenceRuns.CoveredOutcome | native/vcg-host/src/accessibility.rs:313-371 | every disk state an operation passes through reopens as what was stored before or what it stores |
| AccessibilityStore.AccessibilityStore.Save | native/vcg-host/src/accessibility.rs:313-350 | every disk state on the way keeps the claim and only the new document joins the generations; success leaves that document alone on the disk; on failure the store reports the new document and counts on exactly once it is durable, and otherwise reports and counts as before; only failing calls leave an incoming file behind |
| AccessibilityStore.AccessibilityStore.Reset | native/vcg-host/src/accessibility.rs:358-371 | success leaves a settled empty store with ordinals starting over; failure changes nothing the store reports, and leaves the stored document or a live marker, and where the marker may be lost any document that was on the disk |
| AccessibilityStore.FileSystem.FinishReset | native/vcg-host/src/accessibility.rs:455-480 | deletes every generation and then the marker, synchronizing in that order |
| AccessibilityStore.FileSystem.CleanupOldGenerations | native/vcg-host/src/accessibility.rs:529-551 | removes all but the newest generation, keeping the claim at every step |
| AccessibilityRecovery.Open | native/vcg-host/src/accessibility.rs:244-299 | recovers from any live directory within the bound, synchronized or not, to the outcome it holds, failing only by a failing call or where a refusal is due; every intermediate state keeps the claim it found or the one its cleanup leaves |
| AccessibilityRecovery.RemoveIncoming | native/vcg-host/src/accessibility.rs:482-504 | removes exactly the incoming files, from any live directory, and synchronizes if there were any |
| AccessibilityRecovery.CleanedOutcomes | native/vcg-host/src/accessibility.rs:244-299 | opening promises no less than was promised before unless it deletes what is stored before the newest generation is synchronized |
| AccessibilityRecovery.AnyClaim | native/vcg-host/src/accessibility.rs:244-299 | every disk within the bound keeps some claim, so opening is specified for all of them |
| PreferenceRuns.PerformSave | native/vcg-host/src/accessibility.rs:313-350 | acknowledges exactly when the save returned success; every disk state on the way keeps what is owed and the new document, and where updates persist in order a tidy store fails to save only by a failing call |
| PreferenceRuns.PerformReset | native/vcg-host/src/accessibility.rs:358-371 | acknowledges exactly when the reset returned success, which leaves defaults alone; every disk state on the way keeps what is owed and defaults, the process may go on after a failure, and only a failing call makes it fail |
| PreferenceRuns.Reopen | native/vcg-host/src/accessibility.rs:244-299 | opening what a killed process or a crash left, synchronized or not, keeps what is owed in every disk state on the way; it reports a store exactly when it succeeded, and fails only by a failing call or a due refusal |
| PreferenceRuns.StandingAsAllowed | native/vcg-host/src/accessibility.rs:244-371 | unless a save was acknowledged over a failed reset, or the process was restarted over a failed save where crashes may scatter names, what a run owes is exactly the last acknowledged outcome and the attempts since |
| PreferenceHistories.EveryRun | native/vcg-host/src/accessibility.rs:244-371 | over any script of saves, resets, restarts in place and losses of power, each answered by one log entry, with any call failing and the process killed or power lost at any disk step of an operation or an opening: a crash reopens as the last acknowledged outcome or a later attempt, or what the two exceptions of the standing admit; where updates persist in order and the ordinals last it never refuses, and without a failing call every command succeeds |
| PreferenceHistories.Recover | native/vcg-host/src/accessibility.rs:244-299 | after an outage, further outages may strike in the middle of opening again; the store that finally opens, or the disk left, still keeps what is owed |
| PreferenceHistories.Strike | native/vcg-host/src/accessibility.rs:244-371 | whatever state a kill or a loss of power picks among those logged, the next process finds a disk that keeps what is owed then |
| PreferenceHistories.PromiseKeptIff | native/vcg-host/src/accessibility.rs:313-371 | at any moment of a run, scattered or ordered, the promise without defaults holds exactly when no possible marker state is present or defaults are promised anyway |
| StrictJsonCorrect.AcceptedIff | apps/console-lab/src/strict-json.ts:3-118 | a text valid under sections 2 to 7 of RFC 8259 is accepted exactly when no object repeats a decoded name and at most 64 containers nest |
| StrictJsonCorrect.PrescanFindsFirstDefect | apps/console-lab/src/strict-json.ts:3-118 | on a valid text the error is that of the first defect in document order, and there is no other |
| StrictJsonCorrect.CleanIff | apps/console-lab/src/strict-json.ts:54-112 | the tree walk finds no defect exactly when names are unique everywhere and the nesting fits |
| StrictJsonCorrect.ValueScanned | apps/console-lab/src/strict-json.ts:35-52 | scanning a derived value stops right behind it or at its first defect |
| StrictJsonCorrect.MembersScanned | apps/console-lab/src/strict-json.ts:71-90 | the member loop does the same for the members of an object and the names already seen |
| StrictJsonCorrect.ElementsScanned | apps/console-lab/src/strict-json.ts:101-111 | and the element loop for an array |
| StrictJsonCorrect.NameScanned | apps/console-lab/src/strict-json.ts:14-33 | a string token is read as the name the grammar derives |
| StrictJsonSpelling.DecodedIff | apps/console-lab/src/strict-json.ts:14-33 | the inside of a string token is read as some text exactly when it spells that text: each unit as itself, as one of the eight two-character escapes, or as its four hexadecimal digits in either letter case, all taken from tables of characters |
| StrictJsonSpelling.NameSpelled | apps/console-lab/src/strict-json.ts:14-33 | every name of the grammar spells its decoded text |
| StrictJsonSpelling.SpelledName | apps/console-lab/src/strict-json.ts:14-33 | and every spelling is a name of the grammar with that decoded text |
| JsonGrammar.Characters | apps/console-lab/src/strict-json.ts:120-132 | the whitespace, the digits, the literals and the structural characters are those of sections 2 and 3 of RFC 8259 |
| StrictJson.MembersAt | apps/console-lab/src/strict-json.ts:71-90 | the scanner's offset strictly advances past the members and stays within the text |
| StrictJson.ValueAt | apps/console-lab/src/strict-json.ts:35-52 | a scanned value ends strictly behind its start and within the text, so the mutual recursion terminates on every text |
| StrictJson.ParseJsonWithUniqueObjectFields | apps/console-lab/src/strict-json.ts:3-118 | the scanner around one shared offset gives the verdict of the recursive functions, on every text |
| StrictJson.Scanner.ParseObject | apps/console-lab/src/strict-json.ts:62-91 | follows the object function from the offset where it starts |
| StrictJson.Scanner.ParseString | apps/console-lab/src/strict-json.ts:14-33 | reads the string token the function describes, or fails |
| PlayerSessionRuns.RunSound | apps/console-lab/src/player-session.ts:116-437 | in every reachable state: setup exactly without seats, distinct tracks, a seated launcher owner, only joined or confirming players while live, and somebody not joined while frozen |
| PlayerSessionRuns.RunEvidenced | apps/console-lab/src/player-session.ts:135-167 | in every reachable state a confirming player's counters equal the streak of observations that really missed its track |
| PlayerSessionRuns.StreakCounts | apps/console-lab/src/player-session.ts:153-166 | the streak is the number of latest consecutive observations without the track |
| PlayerSessionRuns.ResumeRejoinsEveryone | apps/console-lab/src/player-session.ts:345-406 | an accepted resume leaves exactly the kept seats, all joined, visible and in the latest observation, one of them the controller's |
| PlayerSessionGuarantees.FreezesExactlyTheLongAbsent | apps/console-lab/src/player-session.ts:135-174 | after any run, an ordinary observation of a live session freezes exactly the seats whose tracks were missing often and long enough, and reports nothing else |
| PlayerSessionGuarantees.RecoveryNeedsResume | apps/console-lab/src/player-session.ts:116-199 | without clock regression or reset, a recovering session is live again only after an accepted resume that left everybody joined and visible |
| PlayerSessionGuarantees.OwnerKeptIff | apps/console-lab/src/player-session.ts:116-199 | every command keeps the overlay and its owner together, except exactly a clock regression while recovering from a pause |
| PlayerSessionGuarantees.OwnerKeptOverRun | apps/console-lab/src/player-session.ts:116-437 | so over any run without such a regression an overlay always has an owner and an owner an overlay |
| PlayerSessionGuarantees.PausedWithoutOwner | apps/console-lab/src/player-session.ts:183-193 | a run with such a regression that ends paused with no owner |
| PlayerSessionGuarantees.UnownedPauseIsStuck | apps/console-lab/src/player-session.ts:255-343 | from an unowned pause no deliberate command changes anything and no track has authority |
| PlayerSessionGuarantees.SilentRecoveryIff | apps/console-lab/src/player-session.ts:137-182 | a frozen session recovers silently exactly when every seated track is seen again, listing the losses still within the window |
| PlayerSessionGuarantees.RecoveryShownIff | apps/console-lab/src/player-session.ts:183-197 | recovery is shown exactly when a track still missing was confirmed lost the whole window ago |
| PlayerSessionGuarantees.DeadlineHonouredIff | apps/console-lab/src/player-session.ts:140-182 | the documented deadline for silent recovery holds of an observation exactly when nobody is past it or somebody is still missing |
| PlayerSessionGuarantees.LateRecoveryIsSilent | apps/console-lab/src/player-session.ts:140-182 | a gap between observations that spans the deadline recovers silently with an empty list |
| PlayerSessionGuarantees.GameplayAuthorityIff | apps/console-lab/src/player-session.ts:255-261 | gameplay authority belongs exactly to seated tracks of the latest observation while playing |
| PlayerSessionGuarantees.SingleAuthority | apps/console-lab/src/player-session.ts:263-293 | launcher and overlay obey at most one track each and never at the same time; recovery excludes both |
| PlayerSessionGuarantees.PauseGoesToEarliest | apps/console-lab/src/player-session.ts:295-333 | only a seated visible track can pause; the earliest completion wins, then the lower slot |
| PlayerSessionGuarantees.AtMostOneEvent | apps/console-lab/src/player-session.ts:116-199 | no call of a reachable session reports two events |
| PlayerSessionGuarantees.LauncherChangesHands | apps/console-lab/src/player-session.ts:201-406 | the launcher changes hands only at the first join, when its owner leaves or is not retained, or when a pause exits to it, which always hands it to the pause's owner |
| PlayerSessionOutcomes.FrozenObservation | apps/console-lab/src/player-session.ts:137-198 | an ordinary observation of a frozen session resumes it when everybody is seen, asks for a deliberate resume when somebody missing was lost the whole reacquisition window ago, and otherwise leaves it frozen; who is joined, awaited or still being confirmed is given each time |
| PlayerSessionOutcomes.NoRecoveryWithinWindow | apps/console-lab/src/player-session.ts:135-198 | over any run of ordinary observations within the reacquisition window after the losses, nobody is asked for a deliberate resume |
| PlayerSessionOutcomes.FaultFreezes | apps/console-lab/src/player-session.ts:418-437 | a hard fault or a clock regression loses everybody seated at that moment; a fault neither restarts a reacquisition window nor leaves recovery |
| PlayerSessionOutcomes.JoinIff | apps/console-lab/src/player-session.ts:201-224 | a join succeeds exactly for a well-formed visible track without a seat, in setup or play, while fewer than the maximum are seated, and seats it in the lowest free slot |
| PlayerSessionOutcomes.LeaveIff | apps/console-lab/src/player-session.ts:226-253 | a seat can be given up exactly while playing; the launcher passes to whoever is left, and with nobody left the session is set up afresh |
| PlayerSessionOutcomes.ResumeIff | apps/console-lab/src/player-session.ts:345-406 | a resume succeeds exactly in recovery, for a visible track and a non-empty roster of seated slots, if there is one seat, which it takes over, or a kept seat asks and all kept tracks are visible; those kept play on without a trace of the loss |
| PlayerSessionOutcomes.ClosePauseIff | apps/console-lab/src/player-session.ts:335-343 | a pause is closed exactly by its owner, who takes the launcher when leaving for it |
| PlayerSessionOutcomes.PauseRefusedIff | apps/console-lab/src/player-session.ts:295-333 | a request to pause is refused exactly for more than sixteen entries or a malformed track, and does nothing outside play |
| PlayerSessionOutcomes.AuthorityIff | apps/console-lab/src/player-session.ts:255-293 | launcher and overlay obey exactly their owners, gameplay any joined visible seat, recovery any visible track when one seat is taken and else the seated visible ones |
| PlayerSessionOutcomes.TracksAcceptedIff | apps/console-lab/src/player-session.ts:490-503 | a list of tracks is accepted exactly when it holds at most sixteen well-formed identifiers, each once |
| PlayerSessionOutcomes.TrackIdIff | apps/console-lab/src/player-session.ts:515-519 | an identifier is well-formed exactly with one to 128 letters, digits and the four marks, the first no mark |
| PlayerSessionOutcomes.RefusalsTell | apps/console-lab/src/player-session.ts:116-406 | whatever is refused, the error given is true of the call |
| PlayerSession.Winner | apps/console-lab/src/player-session.ts:317-329 | the least eligible completion by time and then slot |
| PlayerSessionController.PlayerSessionController.Observe | apps/console-lab/src/player-session.ts:116-199 | the fields after an observation are those of the specification, or unchanged where it throws |
| PlayerSessionController.PlayerSessionController.VisitPlayers | apps/console-lab/src/player-session.ts:135-167 | visiting the players in any order gives the same records and the same lost and recovered slots |
| PlayerSessionController.PlayerSessionController.ForceLoss | apps/console-lab/src/player-session.ts:418-437 | a hard fault or clock regression confirms the losses the specification says |
| PlayerSessionController.PlayerSessionController.Join | apps/console-lab/src/player-session.ts:201-224 | takes the lowest free slot or changes nothing |
| PlayerSessionController.PlayerSessionController.Leave | apps/console-lab/src/player-session.ts:226-253 | frees the slot and hands the launcher on, or changes nothing |
| PlayerSessionController.PlayerSessionController.AuthorizeOwned | apps/console-lab/src/player-session.ts:445-463 | whichever matching player is found first is the only one |
| PlayerSessionController.PlayerSessionController.OpenPauseForTracks | apps/console-lab/src/player-session.ts:295-308 | authorizes the entries in order and opens the pause for them |
| PlayerSessionController.PlayerSessionController.ClosePause | apps/console-lab/src/player-session.ts:335-343 | only the owner closes the pause |
| PlayerSessionController.PlayerSessionController.ResumeRecovery | apps/console-lab/src/player-session.ts:345-406 | a resume follows the specification, takeover included, or changes nothing |
| PlayerSessionController.UniqueTrackIds | apps/console-lab/src/player-session.ts:490-503 | accepts exactly bounded lists of distinct well-formed identifiers, else reports the first fault |
| CanonicalJson.EncodeInjective | native/vcg-host/src/developer_pairing.rs:452-457 | no two registries share a canonical text |
| CanonicalJson.EncodeLength | native/vcg-host/src/developer_pairing.rs:19-21 | the text of any well-formed registry is within 16 KiB |
| CanonicalJson.LaterText | native/vcg-host/src/developer_pairing.rs:132-145 | the text of a later registry, piece by piece, with its field names in order |
| CanonicalJson.EntryText | native/vcg-host/src/developer_pairing.rs:132-145 | the text of an entry, and what separates entries |
| StrictJsonSpelling.EscapeWrites | native/vcg-host/src/developer_pairing.rs:132-145 | what the writer puts for a character is one way JSON writes it |
| DeveloperTrust.ValidateEntries | native/vcg-host/src/developer_pairing.rs:388-450 | validation stops at the first refused entry, or returns the keys by identity |
| DeveloperTrustRuns.EntriesAcceptedIff | native/vcg-host/src/developer_pairing.rs:420-449 | entries are accepted exactly when strictly sorted and each derives its identity from a valid key; the duplicate-key check never fires |
| DeveloperTrustRuns.SortOfSorted | native/vcg-host/src/developer_pairing.rs:325-331 | appending and sorting a sorted list is inserting into it |
| DeveloperTrustRuns.ChainCommitted | native/vcg-host/src/developer_pairing.rs:304-381 | after any committed transitions the registry holds exactly their fold, in the generation that counts them, naming its predecessor |
| DeveloperTrustRuns.CommittedIsValid | native/vcg-host/src/developer_pairing.rs:388-457 | a committed registry always validates and fits the size limit |
| DeveloperTrustRuns.PrepareIff | native/vcg-host/src/developer_pairing.rs:304-381 | a ceremony prepares exactly the permitted transitions, and what it prepares is the next committed registry |
| DeveloperTrustGuarantees.ActiveIff | native/vcg-host/src/developer_pairing.rs:208-277 | any text loads as active exactly when it is the last committed registry, with the folded workstations |
| DeveloperTrustGuarantees.EarlierIsRollback | native/vcg-host/src/developer_pairing.rs:230-235 | every earlier committed registry is refused as a rollback |
| DeveloperTrustGuarantees.PendingThenActive | native/vcg-host/src/developer_pairing.rs:255-277 | a prepared registry asks for its protection commit before, is active after, and fits 16 KiB |
| DeveloperTrustGuarantees.CommitNamesPredecessor | native/vcg-host/src/developer_pairing.rs:255-277 | nothing asks for a commit but a valid registry one generation ahead that names the last committed one |
| DeveloperTrustRefusals.LoadRefused | native/vcg-host/src/developer_pairing.rs:208-277 | every refusal to load is true: which limit, which generation or which predecessor is wrong; what is active or asks for a commit is canonical and in its generation |
| DeveloperTrustRefusals.EntriesRefused | native/vcg-host/src/developer_pairing.rs:420-449 | a list of entries is refused at its first wrong entry, for what is wrong with it |
| DeveloperTrustRefusals.HeaderIff | native/vcg-host/src/developer_pairing.rs:388-419 | a header is accepted exactly for the empty first generation or a later one that names its predecessor, with at most 32 entries |
| DeveloperTrustRefusals.PrepareRefused | native/vcg-host/src/developer_pairing.rs:304-381 | after any committed transitions a ceremony that is refused is refused for what it says |
| DeveloperTrustGuarantees.TrustNeverRollsBack | native/vcg-host/src/developer_pairing.rs:208-381 | over every run of ceremonies, crashes, discards and replaced files, any text loads as active exactly when it is the last committed registry, with the folded workstations, and every earlier committed registry is refused as a rollback |
| DeveloperTrustGuarantees.PublishedIsRecoverable | native/vcg-host/src/developer_pairing.rs:155-303 | a crash between publishing and protecting is always recovered by committing the file on disk |
| DeveloperTrustGuarantees.SomeReaderReadsBack | native/vcg-host/src/developer_pairing.rs:215-227 | there is a reader that reads back every registry text, so the hypothesis about the parser can be met |
| DeveloperSession.SigningMessageBinds | native/vcg-host/src/developer_pairing.rs:483-493 | a signature answers one challenge of a workstation only |
| DeveloperSession.SignedParts | native/vcg-host/src/developer_pairing.rs:483-493 | the signed message is the separator, the version, ordinal, epoch, nonce and deadline at their fixed places |
| DeveloperSession.BigEndianIs | native/vcg-host/src/developer_pairing.rs:483-493 | the eight bytes of a number stand for it, the most significant first |
| DeveloperSession.Liveness.WithLiveSession | native/vcg-host/src/developer_pairing.rs:904-920 | an admitted operation acts only while its session is live, and an expiry once seen is never undone |
| DeveloperSession.DeveloperSessionAuthority.BeginChallenge | native/vcg-host/src/developer_pairing.rs:583-626 | a challenge opens exactly under the listed conditions, with a fresh ordinal; a refusal is true and changes nothing, unless the session had ended |
| DeveloperSession.DeveloperSessionAuthority.Authenticate | native/vcg-host/src/developer_pairing.rs:633-677 | a capability is issued exactly for the pending, unexpired challenge with a valid signature, at most once per epoch; a refusal is true and changes nothing, but that an expired challenge is dropped and a session that has ended is closed |
| DeveloperSession.DeveloperSessionAuthority.AuthorizeOperation | native/vcg-host/src/developer_pairing.rs:684-717 | an operation is admitted exactly under the one live capability for a valid request never admitted before; a refusal is true and changes nothing, unless the session had ended |
| DeveloperSession.AnswerAfterAttempts | native/vcg-host/src/developer_pairing.rs:583-717 | whatever challenges, answers and operations are tried before its deadline, a pending challenge is still there for the right answer |
| DeveloperSession.ValidRequestIff | native/vcg-host/src/developer_pairing.rs:796-880 | a request is valid exactly with identifiers of one to 64 safe characters and, for a push, a digest and one byte to 8 GiB |
| DeveloperSession.DeveloperSessionAuthority.TransitionAndClose | native/vcg-host/src/developer_pairing.rs:728-754 | the session is closed before the transition is prepared, whatever becomes of it |
| DeveloperSession.NewAuthority | native/vcg-host/src/developer_pairing.rs:546-575 | an epoch opens exactly with nonzero randomness and a lifetime within the bound |
| ArtifactRuns.ReadyIsExact | native/vcg-host/src/developer_artifact.rs:203-342 | over every interleaving and loss of power, each ready artifact that was not damaged is the in-order concatenation of its transfer's chunks, of the authorized length and digest, renamed while its session was live, and loads as such |
| ArtifactRuns.NeverOverfull | native/vcg-host/src/developer_artifact.rs:373-517 | staging holds at most one transaction, staging and ready together at most 1024, and no request is published twice, after losses of power too |
| ArtifactRuns.ReadyUntilPowerLoss | native/vcg-host/src/developer_artifact.rs:474-642 | until power is lost a ready artifact is never removed or replaced |
| ArtifactRuns.DurableForever | native/vcg-host/src/developer_artifact.rs:474-642 | an artifact that is ready in every listing that may persist, with its bytes synchronized, is never lost or replaced, whatever happens |
| ArtifactStore.AcknowledgedIsDurable | native/vcg-host/src/developer_artifact.rs:474-517 | an acknowledged publication is durable exactly when no byte of it was left unsynchronized |
| ArtifactDurability.NothingDamaged | native/vcg-host/src/developer_artifact.rs:434-517 | if no two transfers with a live session share a receipt, no loss of power ever damages a ready artifact |
| ArtifactDurability.AcknowledgedForever | native/vcg-host/src/developer_artifact.rs:305-517 | an acknowledged publication is then there for ever, with exactly the bytes its transfer appended |
| ArtifactDurability.AdmittedOnceIsSole | native/vcg-host/src/developer_pairing.rs:684-717 | with one authority at a time, each transfer consuming an operation that its authority admitted, no two transfers with a live session ever have the same receipt |
| ArtifactRuns.HappensKeeps | native/vcg-host/src/developer_artifact.rs:203-342 | every step of the world keeps the invariant behind these |
| ArtifactStore.DeveloperArtifactStore.BeginLocked | native/vcg-host/src/developer_artifact.rs:373-432 | a transaction starts exactly in an empty staging directory with room and an unused request, unless a call fails, and then an inert part of it is left at most |
| ArtifactStore.DeveloperArtifactStore.AppendLocked | native/vcg-host/src/developer_artifact.rs:434-472 | appends the chunk once to the bytes the transfer has counted and synchronizes it, or leaves the count and the hash alone; it fails only for a stated reason or by a failing call |
| ArtifactStore.DeveloperArtifactStore.FinalizeLocked | native/vcg-host/src/developer_artifact.rs:474-517 | publishes by a rename and answers after both directories are synchronized, exactly when the bytes are complete and match and the request is unused, unless a call fails |
| ArtifactStore.AnswersMean | native/vcg-host/src/developer_artifact.rs:373-517 | a begin is refused for its stated reason only, and a transfer is complete exactly when its count, both digests and its files agree with the authorization |
| ArtifactStore.LoadMeans | native/vcg-host/src/developer_artifact.rs:586-618 | a ready artifact loads exactly when its receipt names it and gives its length and digest, and each error has its own cause |
| ArtifactStore.DeveloperArtifactStore.FinalizeAuthorizedPush | native/vcg-host/src/developer_artifact.rs:305-321 | any change needs the originating session live at that moment; while no call fails the answer follows from the session and the bytes |
| ArtifactStore.DeveloperArtifactStore.CancelAuthorizedPush | native/vcg-host/src/developer_artifact.rs:329-342 | removes the transfer's own staging directory, or part of it if a call fails |
| ArtifactStore.DeveloperArtifactStore.RecoverIncomplete | native/vcg-host/src/developer_artifact.rs:369-371 | removes every staging directory and nothing else, and fails only by a failing call |
| ArtifactStore.DeveloperArtifactStore.PublishAuthorizedPush | native/vcg-host/src/developer_artifact.rs:214-237 | on success the ready directory gains exactly the bytes read, durably, under the authorized receipt; on failure no ready artifact is lost, what is left is one of the listed states and the error names the first thing that went wrong; and while no call fails it succeeds exactly when the session is live throughout, the store has room and the bytes match the authorization |
| TrackerRuns.OnlyCurrentStreamLives | apps/console-lab/src/tracker.ts:76-166 | under every interleaving the only live streams are the current one and those granted to attempts yet to continue |
| TrackerRuns.NoStreamSurvivesStop | apps/console-lab/src/tracker.ts:150-166 | after a stop the tracker holds no stream; what still lives was granted to a stopped attempt |
| TrackerRuns.LateStreamDies | apps/console-lab/src/tracker.ts:106-116 | such an attempt stops its stream when it continues and leaves the current one alone |
| TrackerRuns.BusyIffOneOutstanding | apps/console-lab/src/tracker.ts:323-364 | the gate is busy exactly when one frame of the current run is outstanding, and never is more than one |
| TrackerRuns.StaleIsInert | apps/console-lab/src/tracker.ts:90-148 | a continuation of a stopped attempt or an ended run changes neither the tracker nor its gate and delivers nothing |
| TrackerRuns.StoppedStaysStale | apps/console-lab/src/tracker.ts:150-160 | whatever was under way when the tracker stopped stays stale for ever |
| TrackerRuns.DeliveredInOrder | apps/console-lab/src/tracker.ts:247-385 | frames are delivered in strictly increasing sequence over the tracker's whole life |
| TrackerRuns.OneWorker | apps/console-lab/src/tracker.ts:168-205 | there is never more than one worker, and none after a close |
| TrackerRuns.TakeKeeps | apps/console-lab/src/tracker.ts:76-419 | every step keeps the invariant behind these |
| TrackerRuns.BackendAvailable | apps/console-lab/src/tracker.ts:331-369 | while the tracker runs its backend is there, so both unavailable-backend errors are dead code |
| TrackerRuns.UndisturbedStartRuns | apps/console-lab/src/tracker.ts:76-148 | whatever happened before, an attempt of an idle tracker that nothing disturbs ends running on a new live stream with one frame callback waiting |
| TrackerOutcomes.WorkerDelivers | apps/console-lab/src/tracker.ts:323-364 | whatever happened before, a new frame of a running tracker with a free worker takes the gate, is posted and, once inferred, is delivered with its number; the gate is then free and one callback waits |
| TrackerOutcomes.MainThreadDelivers | apps/console-lab/src/tracker.ts:365-386 | on the main thread a new frame is delivered at once and the next callback is asked for |
| TrackerOutcomes.BusyDropsFrame | apps/console-lab/src/tracker.ts:331-338 | a frame that comes while the worker is busy is dropped and counted, and the next callback is asked for |
| TrackerOutcomes.CaptureEndsRun | apps/console-lab/src/tracker.ts:345-364 | a frame that cannot be captured or transferred ends the run, stops its stream and discards the worker |
| TrackerOutcomes.InferenceEndsRun | apps/console-lab/src/tracker.ts:258-263 | so does a frame the worker fails on |
| TrackerOutcomes.FailingStartGivesUp | apps/console-lab/src/tracker.ts:90-148 | an attempt whose worker fails falls back to the main thread; one that fails there, is denied the camera or cannot play gives up holding nothing |
| TrackerOutcomes.StopEnds | apps/console-lab/src/tracker.ts:150-166 | a stop ends run and attempt, stops the stream and keeps a ready worker but drops one that is not |
| MediaPipeTracker.FrameGate.TryAcquire | apps/console-lab/src/frame-gate.ts:9-16 | acquires exactly when free and counts a dropped frame otherwise |
| MediaPipeTracker.MediaPipeTracker.Start | apps/console-lab/src/tracker.ts:76-88 | starts a new attempt exactly when nothing runs and none is under way |
| MediaPipeTracker.MediaPipeTracker.Stop | apps/console-lab/src/tracker.ts:150-166 | the whole new state after a stop |
| MediaPipeTracker.MediaPipeTracker.TakeStream | apps/console-lab/src/tracker.ts:112-116 | a granted stream is taken, or stopped if the attempt was aborted |
| MediaPipeTracker.MediaPipeTracker.PlayAnswers | apps/console-lab/src/tracker.ts:125-147 | the run begins, or the attempt's own stream is released |
| MediaPipeTracker.MediaPipeTracker.ProcessFrame | apps/console-lab/src/tracker.ts:323-390 | one frame step as specified |
| MediaPipeTracker.MediaPipeTracker.HandleWorkerMessage | apps/console-lab/src/tracker.ts:247-264 | a message counts only for the current run |
| MediaPipeTracker.MediaPipeTracker.CaptureAnswers | apps/console-lab/src/tracker.ts:345-364 | a bitmap that comes too late is dropped; a frame gets its number before its transfer, which may fail |
| ObstacleRuns.PairsFollowTime | apps/console-lab/src/two-player-obstacle-round.ts:181-259 | while a round plays, the pairs spawned are the whole intervals played plus one, however the time was sliced, paused or joined late |
| ObstacleRuns.QueueInOrder | apps/console-lab/src/two-player-obstacle-round.ts:232-278 | the queue stays sorted with strictly increasing identities, resolved exactly when the time is up, with nothing overdue |
| ObstacleRuns.PrunedQueue | apps/console-lab/src/two-player-obstacle-round.ts:242-244 | pruning at the head is complete and drops nothing else |
| ObstacleRuns.NothingIsLost | apps/console-lab/src/two-player-obstacle-round.ts:261-295 | for every living player each spawned obstacle is still coming, was cleared for 100 points or cost one life |
| ObstacleRuns.FacedConserves | apps/console-lab/src/two-player-obstacle-round.ts:238-295 | moving past obstacles turns coming ones into clears and hits one for one |
| ObstacleRuns.RunSound | apps/console-lab/src/two-player-obstacle-round.ts:137-305 | every reachable round satisfies the invariant behind these |
| ObstacleOutcome.EveryRoundEnds | apps/console-lab/src/two-player-obstacle-round.ts:181-258 | a round is finished once its unsuspended time reaches countdown and round length, however sliced |
| ObstacleOutcome.EndsEarlyOnlyWhenAllOut | apps/console-lab/src/two-player-obstacle-round.ts:253-258 | and before that only when every player is out of lives |
| ObstacleOutcome.ClockShowsElapsed | apps/console-lab/src/two-player-obstacle-round.ts:181-246 | the clocks of an unfinished round show the unsuspended time exactly |
| ObstacleOutcome.RankIsLexicographicIff | apps/console-lab/src/two-player-obstacle-round.ts:302-304 | the ranking number orders results by points and then lives for all results exactly up to 9999 starting lives |
| ObstacleOutcome.RankOrderIff | apps/console-lab/src/two-player-obstacle-round.ts:302-304 | for two given results it does so exactly when no lead in points is outweighed by lives |
| ObstacleOutcome.WinnerBeatsTheOther | apps/console-lab/src/two-player-obstacle-round.ts:297-305 | with up to 9999 starting lives the winner is the player with more points, or as many points and more lives |
| ObstacleTie.WinnerIsRightIff | apps/console-lab/src/two-player-obstacle-round.ts:297-305 | every round that can be played to its end with two players has the right winner exactly up to 9999 starting lives; beyond, a run is given in which the leader in points does not win |
| ObstacleOutcome.NoWinnerAlone | apps/console-lab/src/two-player-obstacle-round.ts:297-301 | an unfinished round or a round alone has no winner |
| ObstacleOutcome.KindsAlternate | apps/console-lab/src/two-player-obstacle-round.ts:261-278 | the two obstacles of a pair differ in kind, and a player meets every kind within any three spawns |
| ObstacleEncounters.JumpLasts | apps/console-lab/src/two-player-obstacle-round.ts:165-295 | a jump carries over jump obstacles for exactly 650 milliseconds, and changes nothing about the others |
| ObstacleEncounters.DuckLasts | apps/console-lab/src/two-player-obstacle-round.ts:165-295 | ducking gets under duck obstacles for exactly 800 milliseconds |
| ObstacleEncounters.DodgeMoves | apps/console-lab/src/two-player-obstacle-round.ts:165-295 | dodging moves one lane within the three, and clears the lane obstacle whose lane it leaves |
| ObstacleEncounters.LanesTurn | apps/console-lab/src/two-player-obstacle-round.ts:261-278 | a player meets lane obstacles in the three lanes in turn |
| ObstacleEncounters.JumpThenDuck | apps/console-lab/src/two-player-obstacle-round.ts:261-278 | between two of them comes a jump and then a duck obstacle |
| ObstacleEncounters.RosterChanges | apps/console-lab/src/two-player-obstacle-round.ts:137-155 | a roster with another slot is refused, the same roster changes nothing, and a late joiner gets fresh lives while everybody else goes on |
| TwoPlayerObstacleRound.TwoPlayerObstacleRound.Update | apps/console-lab/src/two-player-obstacle-round.ts:181-198 | the whole new state after an update |
| TwoPlayerObstacleRound.TwoPlayerObstacleRound.AdvancePlaying | apps/console-lab/src/two-player-obstacle-round.ts:232-259 | playing time moves, resolves, prunes, spawns and finishes as specified |
| TwoPlayerObstacleRound.TwoPlayerObstacleRound.MoveObstacles | apps/console-lab/src/two-player-obstacle-round.ts:238-241 | the loop moves every obstacle and resolves each on its player in order |
| TwoPlayerObstacleRound.TwoPlayerObstacleRound.SpawnAllDue | apps/console-lab/src/two-player-obstacle-round.ts:248-251 | spawns until nothing is due or no time is left |
| TwoPlayerObstacleRound.TwoPlayerObstacleRound.SetRoster | apps/console-lab/src/two-player-obstacle-round.ts:137-155 | a late join is seated in the running round; any other change starts afresh |
| TwoPlayerObstacleRound.TwoPlayerObstacleRound.HandleAction | apps/console-lab/src/two-player-obstacle-round.ts:165-179 | acts on the living player of the slot while playing |
| Leaderboard.KeptIsTopOfHistory | apps/console-lab/src/local-leaderboard.ts:69-153 | after any operations the list is the first twenty of the stable sort of the whole history with the same unassignments |
| Leaderboard.RecordLosesNothing | apps/console-lab/src/local-leaderboard.ts:88-153 | truncating at every step loses nothing |
| Leaderboard.UnassignCommutes | apps/console-lab/src/local-leaderboard.ts:93-103 | unassigning in the truncated list is unassigning in the history |
| Leaderboard.UnassignMeans | apps/console-lab/src/local-leaderboard.ts:93-103 | unassigning changes the player of exactly the entries of that profile and nothing else of any entry |
| Leaderboard.SortIsTheStableSort | apps/console-lab/src/local-leaderboard.ts:149-153 | a list is the stable sort exactly when it is sorted with every group of ties in order |
| Leaderboard.KeptAreBest | apps/console-lab/src/local-leaderboard.ts:149-153 | of any history the twenty highest scores are kept, highest first and later runs before earlier ones, and nothing dropped is better than anything kept |
| Leaderboard.ValidResultIff | apps/console-lab/src/local-leaderboard.ts:69-87 | a result is recorded exactly with whole numbers within the stated limits and a well-formed player |
| Leaderboard.BoundedIsFixed | apps/console-lab/src/local-leaderboard.ts:115-153 | reloading a persisted list changes nothing |
| Leaderboard.LocalObstacleLeaderboard.Record | apps/console-lab/src/local-leaderboard.ts:69-91 | adds exactly valid results, on top of the history, and tells the storage every time; persistence is given up only for a call that threw |
| Leaderboard.LocalObstacleLeaderboard.UnassignProfile | apps/console-lab/src/local-leaderboard.ts:93-103 | takes the profile off its entries, returns how many they were and leaves the storage alone if there were none |
| Leaderboard.LocalObstacleLeaderboard.Reset | apps/console-lab/src/local-leaderboard.ts:105-113 | forgets everything, in the storage too while it works |
| Leaderboard.LocalObstacleLeaderboard.constructor | apps/console-lab/src/local-leaderboard.ts:115-137 | loads a stored document, recovers from anything else that it could read, and reports exactly which it did and what the storage then holds |
| Leaderboard.Reload | apps/console-lab/src/local-leaderboard.ts:115-147 | a leaderboard loaded from what another persisted has the same entries |
| LibraryOrder.ComparesAsTheHost | apps/console-lab/src/native-host-protocol.ts:507-518 | on well-formed strings the sign is that of the bytewise comparison of the UTF-8 encodings |
| LibraryOrder.ScalarOrderIsByteOrder | apps/console-lab/src/native-host-protocol.ts:507-518 | scalar order and the byte order of RFC 3629 encodings agree for all scalar sequences |
| LibraryOrder.Utf8Layout | apps/console-lab/src/native-host-protocol.ts:507-518 | the encodings compared are the shortest ones of RFC 3629, section 3, with the stated lead and continuation bytes |
| LibraryOrder.CompareScalars | apps/console-lab/src/native-host-protocol.ts:507-518 | the loop gives the sign of the lexicographic order of code points, for all strings |
| LibraryOrder.CodePointsOfUtf16 | apps/console-lab/src/native-host-protocol.ts:508-509 | iterating over a well-formed string gives its scalars back |
| LibraryOrder.CodeUnitOrderDiffers | apps/console-lab/src/native-host-protocol.ts:491-495 | comparing code units would order some titles the other way |
| LibraryOrder.EntryOrder | apps/console-lab/src/native-host-protocol.ts:496-505 | the triple comparison is a total order whose ties are equal triples |
| LibraryOrder.EntriesCompareAsTheHost | apps/console-lab/src/native-host-protocol.ts:491-505 | on well-formed strings entries compare by system, then title, then entry, each as the host compares bytes |
| LibraryOrder.HeaderIff | apps/console-lab/src/native-host-protocol.ts:403-430 | the exact limits of a page header |
| LibraryOrder.CursorIff | apps/console-lab/src/native-host-protocol.ts:442-450 | a cursor is 32 lowercase hexadecimal digits |
| LibraryOrder.IsNativeLibraryPage | apps/console-lab/src/native-host-protocol.ts:403-452 | a page is accepted exactly when its header and cursor are valid and its entries are strictly sorted throughout |
| LibraryOrder.SortedMeansDistinct | apps/console-lab/src/native-host-protocol.ts:432-441 | no accepted page repeats an entry |
| ActionRuns.HoldsFollowTheGrammar | apps/console-lab/src/action-engine.ts:376-475 | over every run each hold emits started, then held, at most one trigger past its threshold, then ended if it triggered and cancelled if not, or is dropped by a suspend |
| ActionRuns.TriggersApart | apps/console-lab/src/action-engine.ts:714-719 | two triggers of one name are at least 650 ms apart unless a leave, reset or fault lies between |
| ActionRuns.RunSpaced | apps/console-lab/src/action-engine.ts:477-564 | the cooldown table always holds the last trigger of each name |
| ActionRuns.HomeBetweenSwipes | apps/console-lab/src/action-engine.ts:522-562 | between two swipes there is always a frame after which the hand is home again |
| ActionRuns.OneSwipeAtATime | apps/console-lab/src/action-engine.ts:522-562 | no frame of a run emits two swipes |
| ActionRuns.FaultSilences | apps/console-lab/src/action-engine.ts:163-307 | after a chronology fault nothing is emitted until a reset, whatever else happens |
| ActionRuns.FaultDrops | apps/console-lab/src/action-engine.ts:164-296 | the faulty frame itself is silent, drops every hold and forgets every cooldown |
| ActionRuns.AcceptedInOrder | apps/console-lab/src/action-engine.ts:240-291 | accepted frames come in increasing sequence and never back in time |
| ActionRuns.RejoinNeedsRelease | apps/console-lab/src/action-engine.ts:203-206 | after leaving, hands still together cannot join before they were seen apart |
| ActionRuns.FrameReads | apps/console-lab/src/action-engine.ts:376-475 | a frame's actions, read for one family, are that family's hold alone |
| ActionOutcomes.FrameMeans | apps/console-lab/src/action-engine.ts:376-564 | everything a frame can trigger, and exactly when: holds once their hands or arms have held long enough and are due, movements in play after calibration when newly read, a swipe on leaving home for its own zone; and what is latched, joined and released after it |
| ActionOutcomes.AcceptedIff | apps/console-lab/src/action-engine.ts:240-296 | a frame is accepted exactly when it is in order in itself and after the last one from the same source in the same quality |
| ActionOutcomes.AcceptedFrame | apps/console-lab/src/action-engine.ts:145-196 | an accepted frame without a player ends every gesture, and one with a player is read at its publication time after its sample is counted |
| ActionOutcomes.StartsAfresh | apps/console-lab/src/action-engine.ts:198-239 | what joining, leaving, suspending and resetting each forget and keep |
| GestureEngine.GestureEngine.Enrich | apps/console-lab/src/action-engine.ts:145-196 | the whole new state and the actions of a frame |
| GestureEngine.GestureEngine.AdvanceHold | apps/console-lab/src/action-engine.ts:650-685 | one hold step as specified |
| GestureEngine.GestureEngine.UpdateDiscrete | apps/console-lab/src/action-engine.ts:697-712 | one latch step as specified |
| GestureEngine.GestureEngine.Trigger | apps/console-lab/src/action-engine.ts:714-719 | triggers exactly when cooled down |
| Bluetooth.RefreshAssigns | native/vcg-host/src/bluetooth.rs:255-312 | a refresh fails exactly when the counter would overflow; otherwise exactly the reported addresses have identities, each keeps its own, and the device states match |
| Bluetooth.NeverFull | native/vcg-host/src/bluetooth.rs:289-291 | the sixteen-device error is never the reason to refuse an address |
| Bluetooth.IdSelectableIff | native/vcg-host/src/bluetooth.rs:346-359 | an identity can be selected again exactly while its number has at most nine digits |
| BluetoothTexts.SelectableIff | native/vcg-host/src/bluetooth.rs:346-359 | an identity can be selected exactly if it is the word and a number up to 999999999 without a leading zero |
| BluetoothTexts.AddressIff | native/vcg-host/src/bluetooth.rs:379-389 | an address is six pairs of hexadecimal digits with colons between them |
| BluetoothTexts.UpperCases | native/vcg-host/src/bluetooth.rs:361-377 | upper-casing takes each small letter to its capital and leaves everything else |
| BluetoothService.MapsStayInverse | native/vcg-host/src/bluetooth.rs:195-344 | over every run the two maps are inverse, over exactly the device states while the counter lasts |
| BluetoothService.IdentityNamesOneAddress | native/vcg-host/src/bluetooth.rs:255-312 | over a whole run an identity never names two addresses |
| BluetoothService.ForgetKeeps | native/vcg-host/src/bluetooth.rs:225-240 | forgetting removes the device from all three maps |
| BluetoothService.PairingService.Refresh | native/vcg-host/src/bluetooth.rs:255-312 | asks about the first sixteen listed addresses; any failed answer leaves the state alone, otherwise the state is that of the controllers found |
| BluetoothService.PairingService.Assign | native/vcg-host/src/bluetooth.rs:268-311 | the loop over the three maps gives the specified state |
| BluetoothService.PairingService.Pair | native/vcg-host/src/bluetooth.rs:195-218 | records the second answer, and only after everything succeeded |
| BluetoothService.PairingService.Forget | native/vcg-host/src/bluetooth.rs:225-240 | removes the device once the bond is gone |
| BluetoothService.ParseDeviceAddresses | native/vcg-host/src/bluetooth.rs:361-377 | exactly the valid addresses of the device lines, upper-cased, once each, in order of appearance |
| BluetoothService.ReadBounded | native/vcg-host/src/bluetooth.rs:106-123 | returns all bytes exactly when they are at most 65536, for any chunking |

## Left out

- Bridging components, drawing, smoothing and coordinate transforms of the logo script: they rest on an imaging library that is not part of this model.
- Byte encoding of the preference document, path and symbolic-link checks, and the process lock: a document is either whole or torn.
- PreferenceHistories.EveryRun: for crashes that scatter names it admits a refusal at every state; when one can happen is decided per state by `NeverRefusedIff` and per save by `SaveNeverRefusedIff`.
- ArtifactRuns.ReadyIsExact: says nothing about the bytes of an artifact that power was lost on before they were all synchronized; `NothingDamaged` rules such artifacts out.
- The JSON parser that runs after the pre-scan; its reading of a string token is written out, the rest of it is not part of this model.
- StrictJsonCorrect.AcceptedIff: speaks of texts that are valid JSON; what the pre-scan says about other texts is given by its functions alone, and the parser behind it rejects them.
- Ed25519 and SHA-256: a signature check and two digests are parameters.
- Registry keys stand for their 64 hexadecimal digits, so the conversion between bytes and digits is not modelled; the protected-state document is a value without its own JSON text.
- Poisoned locks, and callbacks of the tracker that throw or call back into it before they return.
- Camera streams that end by themselves stay in the set of streams until the tracker stops them, and the three awaits inside the main-thread landmarker are one.
- Health events, status texts and frame contents of the tracker.
- Rounding of JavaScript numbers in the session, round and gesture clocks.
- The parts of a library page that are not order or bounds: which fields an entry has, and the characters of its texts.
- Geometry of gestures: whether hands are together, arms crossed, a movement is made and which zone a hand is in are inputs of each frame; confidences and the order of actions within a frame are not modelled.
- Starting `bluetoothctl` and reading its description of a device; the order in which a Bluetooth snapshot lists devices.
- Concurrent Bluetooth calls: commands are serial, as the host worker makes them.
- Application wiring, rendering, hardware scripts, schema exports, HTTP handling and package installation.
