# Verification of otacon's live-call and fleet logic

A Dafny model of the parts of the repository where state, time and text interact, with proofs
of what they promise:

- **Lines and legs** (`TwilioLine.dfy`, `TwilioCalls.dfy`, `PartyLines.dfy`, `CallLines.dfy`,
  `CallSteps.dfy`, `CallRow.dfy`, `CallRuns.dfy`): a call mission's numbered lines and the Twilio line's legs are two state
  machines; they stay in agreement while calls are answered and hung up at any wait, so the voice
  model never talks to a party on hold.
- **The end of a call** (`Ending.dfy`): one report, however many things end the call.
- **Hold detection** (`LineSound.dfy`): windows to seconds to runs to hold time that never jumps.
- **Streaming audio** (`Chunks.dfy`, `Pcm.dfy`, `CallMix.dfy`, `Preroll.dfy`, `G711.dfy`,
  `Resample.dfy`): chunk queues are byte queues, ring buffers are convolutions, chunked
  processing is whole-stream processing, and the mu-law codec keeps its error bound.
- **Reports** (`Text.dfy`, `Report.dfy`, `Recent.dfy`, `Context.dfy`): what is printed fits, and is
  parsed back as it was.
- **Commands, marks, waits and presses** (`Otacon.dfy`, `LineWaits.dfy`, `Navigator.dfy`,
  `NavigatorChecks.dfy`): each is settled once; a failed key press leaves nothing.
- **The fleet** (`Fleet.dfy`, `Phones.dfy`, `Reconnect.dfy`): ports and dongles stay unique, the
  cleanup of `phones.json` sticks, and each device has one reconnect timer.

`dafny verify dfyconfig.toml` checks all of it.

## How it is modelled

Where the source updates an object step by step there is a class with its fields, and each method
is proved to do what a function on the object's state says (`State() == F(old(State()))`). The
lemmas are about those functions: one per step, then one for every run. A step is everything the
source does between two waits on the outside (a reply, a timer, an event), so replies and events
interleave in any order between steps.

Assumptions, which the theorems state in their `Possible` predicates or preconditions:

- The mission's line tools run one at a time, and no other call comes in on its line: a line with
  a mission is busy and turns callers away (`runtime.ts:360-363`, `twilio.ts:432`).
- Two things come in time (`CallRow.InTime`), and a step keeps mission and phone line in agreement
  exactly if it does (`CallRow.MStepKeepsIff`). First, the mission hears the end of the call it
  talks to before the reply to that call's hang-up, if it then goes back to another: the source
  refuses `resume` while the hung-up leg is off hold, and the mission swallows the refusal
  (`CallRow.HangUpNeedsTheEnd`, `CallRuns.TheEndCanComeLate`). Second, no status callback tells of
  a call that was dropped as if it were still being set up, which callbacks in order never do
  (`CallRow.InOrderIsInTime`, `CallRuns.ALateRingingMisleads`). A callback that does is harmless
  only if that call is the next in the row, and the mission talks to one that is off hold and is not
  calling another from a different line (`CallRow.Harmless`).
- No call ends while a merge waits for Twilio to redirect it (`Twilio.MergeInTime`).
  `Twilio.MergeReplyKeepsIff` shows it is needed.
- Twilio's call ids are unique, and it answers only what it was asked.
- An otacon link is not started while it has a socket or is about to make one.
- Fleet operations are atomic and their writes succeed.

Some things the source says of itself are only almost so. The model follows the code, and a
theorem says exactly when they hold:

- `reconnect.py` says each device has one Connect call in flight. A disconnect or a removal clears
  the flag while the call is still out, and then there can be two (`Reconnect.OneCallKeptIff`,
  `Reconnect.TwoCallsInFlight`).
- `call.ts` says `finish` hangs up what is still up. It hangs up what was up when it began; a call
  being placed at that time gets its line later, and if it is answered nothing hangs it up
  (`Ending.AllHungUpIff`). No call being placed when the ending begins is enough, and with one there
  is a way to leave a line up (`Ending.NoDialAllHungUp`, `Ending.LateDialLeavesALine`).
- `call.ts` calls another party while the first is on hold. If the dial is refused, nothing takes
  the first one off hold again (`CallRow.HeardUnlessDialFailed`, `CallRow.NothingTakesItOff`,
  `CallRuns.AFailedDialLeavesHold`).
- `ports.py` says ports are unique per phone. They are until indices are 1,010 apart: then one
  phone's internal port is the other's snapshot port (`Fleet.PortsClashIff`).
- `mix.ts` bounds the queue by dropping whole chunks, so how the audio is cut matters once two
  chunks are more than it holds (`CallMix.TwoPushesAsOneIff`, `CallMix.ChunkingMatters`).

## Model

| member | source | states |
|---|---|---|
| `LineSound.LineSound.Window` | src/openclaw-voice/src/linesound.ts:42-57 | A detector window is kept; a second is reported exactly at every 31st window, and it is the class of the last 31 windows heard: `Valid` ties counters and seconds to them, and LineSound.SecondMeans says what the class of 31 windows is |
| `LineSound.SecondHeard` | src/openclaw-voice/src/linesound.ts:42-57 | The second a 31st window completes is the sound of the last 31 windows, whatever came before |
| `LineSound.SpeechNeedsTenWindows` | src/openclaw-voice/src/linesound.ts:47-52 | A second is speech exactly when at least 10 of its 31 windows are |
| `LineSound.SecondMeans` | src/openclaw-voice/src/linesound.ts:42-52 | Every second, told from its 31 windows: speech if and only if at least ten are above 0.5; of any other, music if every window is at least as loud as 0.003, silence if all are below |
| `LineSound.LoneSound` | src/openclaw-voice/src/linesound.ts:45-52 | In a second without speech in which only one window is not silent, that window makes it music if and only if its square is at least 31 times the square of 0.003: loudness is the root of the mean square |
| `LineSound.LouderStaysMusic` | src/openclaw-voice/src/linesound.ts:45-52 | Louder windows never turn music into silence |
| `LineSound.FirstSecond` | src/openclaw-voice/src/linesound.ts:54-54 | The first second begins one second before now, rounded half up, and not before the call |
| `LineSound.LineSound.Runs` | src/openclaw-voice/src/linesound.ts:59-72 | The loop that extends, pops and pushes runs computes the runs of the seconds so far |
| `LineSound.RunsAreFaithful` | src/openclaw-voice/src/linesound.ts:59-72 | For any seconds: the runs tile them without gaps, neighbours differ, each run begins and ends on its own sound, no two seconds in a row disagree with their run, and an inner run under two seconds lies between two different sounds |
| `LineSound.LineSound.QuietSince` | src/openclaw-voice/src/linesound.ts:75-80 | The backward scan finds where the quiet at the end began, if that is five seconds ago or more |
| `LineSound.QuietSinceMeans` | src/openclaw-voice/src/linesound.ts:75-80 | quietSince gives where the last runs without speech began if that is five seconds ago or more, and nothing otherwise |
| `LineSound.LineSound.GetSummary` | src/openclaw-voice/src/linesound.ts:87-111 | The forward scan computes the summary: sound now, how long, seconds on hold, the latest 12 runs |
| `LineSound.SummaryMeans` | src/openclaw-voice/src/linesound.ts:87-111 | The summary of any seconds: what plays now is the last second's sound; the time it has played began with such a second, after one of another sound, and no two seconds in a row in it were anything else; the latest runs are the last twelve, or all |
| `LineSound.HoldStable` | src/openclaw-voice/src/linesound.ts:87-104 | Once a hold is found for a press, any further seconds leave its start where it is, although folding rewrites the last runs |
| `LineSound.HoldGrowsBySeconds` | src/openclaw-voice/src/linesound.ts:87-111 | A reported hold is at least 5 seconds and grows by exactly 1 with every further second |
| `LineSound.HoldMeansQuiet` | src/openclaw-voice/src/linesound.ts:94-104 | A reported hold began no earlier than the last press and has a stretch of at least five seconds in it without two speech seconds in a row |
| `LineSound.QuietIsOnHold` | src/openclaw-voice/src/linesound.ts:75-111 | If quietSince gives f and no key was pressed after f, the summary reports at least now - f seconds on hold |
| `LineSound.QuietSecondsAreOnHold` | src/openclaw-voice/src/linesound.ts:59-111 | Five or more seconds without speech since the last press are always reported as a hold that covers them |
| `Twilio.TwilioLine.AddLeg` | src/openclaw-voice/src/twilio.ts:159-173 | A new leg is filed last and announced |
| `Twilio.TwilioLine.ChangeState` | src/openclaw-voice/src/twilio.ts:175-180 | A state change reaches the leg and `calls` and is announced; none after the call ended, none without a change |
| `Twilio.TwilioLine.CallOver` | src/openclaw-voice/src/twilio.ts:182-190 | An ended call leaves both maps, its marks resolve, and its end is announced once, as local if the line hung it up |
| `Twilio.TwilioLine.Active` | src/openclaw-voice/src/twilio.ts:193-196 | The loop finds the newest leg off hold |
| `Twilio.TwilioLine.NewestHeld` | src/openclaw-voice/src/twilio.ts:280-290 | The loop finds the newest leg on hold |
| `Twilio.TwilioLine.HoldActive` | src/openclaw-voice/src/twilio.ts:271-278 | hold: refused without a leg off hold; else that leg is held and none of its marks is left |
| `Twilio.TwilioLine.ResumeHeld` | src/openclaw-voice/src/twilio.ts:279-287 | resume: refused if no leg is held or any is off hold; else the newest held leg is off hold |
| `Twilio.TwilioLine.SwapLegs` | src/openclaw-voice/src/twilio.ts:288-301 | swap: the two legs change places and the one taken off hold becomes the newest |
| `Twilio.TwilioLine.StartRedirect` | src/openclaw-voice/src/twilio.ts:216-225 | A redirect drops the leg's marks and flags it until its new stream or a refusal |
| `Twilio.TwilioLine.StartMerge` | src/openclaw-voice/src/twilio.ts:302-308 | merge: refused unless two legs are up; then the first is redirected |
| `Twilio.TwilioLine.ContinueMerge` | src/openclaw-voice/src/twilio.ts:307-313 | A merge goes on leg by leg as Twilio answers, and stops at a refusal |
| `Twilio.TwilioLine.PutMark` | src/openclaw-voice/src/twilio.ts:369-377 | A mark waits on the active leg if its stream is up and not being replaced |
| `Twilio.TwilioLine.ClearAudio` | src/openclaw-voice/src/twilio.ts:379-389 | clear resolves every mark of the active leg |
| `Twilio.TwilioLine.StatusReport` | src/openclaw-voice/src/twilio.ts:441-455 | A status callback ends a call or changes its state, except that a held leg stays held |
| `Twilio.TwilioLine.OnStreamStart` | src/openclaw-voice/src/twilio.ts:475-500 | A stream is its leg's only if the leg is up; it ends a redirect and makes a leg that is off hold active |
| `Twilio.TwilioLine.OnStreamStop` | src/openclaw-voice/src/twilio.ts:514-518 | A stream's stop ends its call unless the stream was replaced, is being redirected, or the call is in a conference (told from runs in TwilioCalls.StopEndsTheCall and the theorems after it) |
| `Twilio.TwilioLine.OnStreamClose` | src/openclaw-voice/src/twilio.ts:522-527 | A closed socket is no longer its leg's stream; a replaced one changes nothing |
| `Twilio.TwilioLine.OnMark` | src/openclaw-voice/src/twilio.ts:506-513 | A mark message resolves the mark if it still waits on that socket's leg |
| `Twilio.StepKeepsIff` | src/openclaw-voice/src/twilio.ts:159-527 | Any command, event or reply keeps the books (both maps agree, no ended call in either, every mark pending or resolved once) exactly when it is not a merge's reply to a call that has ended since |
| `Twilio.MergeReplyKeepsIff` | src/openclaw-voice/src/twilio.ts:302-315 | The reply to a merge's redirect keeps the books if and only if its call is still up |
| `Twilio.MergeCanReviveACall` | src/openclaw-voice/src/twilio.ts:302-315 | A concrete run in which the reply puts an ended call back into `calls` |
| `Twilio.RunBookkeeping` | src/openclaw-voice/src/twilio.ts:159-190 | From an idle line, in every run whose merges are in time: `legs` and `calls` have the same keys and agree; each call that is gone has one end announced, after which nothing is announced of it; each mark resolves at most once, and has resolved if its leg is held, being redirected or gone |
| `Twilio.EventsIndexed` | src/openclaw-voice/src/twilio.ts:182-190 | The announced ends, read event by event: one each, and the last of its call |
| `TwilioCalls.CallsAreTold` | src/openclaw-voice/src/twilio.ts:159-190 | In every run, late merge replies aside, the calls the line knows are what a listener makes of its announcements: each call as last announced, none whose end was |
| `TwilioCalls.EveryLegMoves` | src/openclaw-voice/src/twilio.ts:182-527 | Every step of every run, leg by leg: a leg goes only when Twilio says its call is over or the stream it has stops, not being replaced and outside a conference; a key press on the newest leg off hold or a merge's turn begins a redirect, and only the new stream or a refusal ends it; streams, hang-ups and conferences change as told and by no other step |
| `TwilioCalls.EveryLegFares` | src/openclaw-voice/src/twilio.ts:175-513 | Every step of every run, leg by leg: which leg goes on hold and which comes off (the newest of its kind), what state its call is in (a held leg is not made active by Twilio's reports or a stream), and which marks it waits for (none once held, redirected or cleared) |
| `TwilioCalls.RedirectOutlivesStops` | src/openclaw-voice/src/twilio.ts:514-518 | After a key press or a merge's turn the call stays up in every run, whatever streams stop, until its new stream starts, the redirect is refused or Twilio says that it is over |
| `TwilioCalls.StopEndsTheCall` | src/openclaw-voice/src/twilio.ts:514-518 | Once a stream has started and nothing has replaced it, outside a conference, its stop ends the call and announces it once, as local if and only if the line had asked to hang it up |
| `TwilioCalls.OldStreamIsNothing` | src/openclaw-voice/src/twilio.ts:514-518 | In every run the stop of a stream that a newer one has replaced changes nothing |
| `TwilioCalls.ConferenceOutlivesStops` | src/openclaw-voice/src/twilio.ts:307-315 | In every run a call that a merge has moved stays up until Twilio says that it is over |
| `TwilioCalls.MergeTurns` | src/openclaw-voice/src/twilio.ts:302-315 | A merge moves the two legs in turn, oldest first, and is given up at a refusal |
| `TwilioCalls.SwappedInIsActive` | src/openclaw-voice/src/twilio.ts:288-301 | After a swap the newest leg off hold is the one that was the newest on hold |
| `TwilioCalls.NewLegMeans` | src/openclaw-voice/src/twilio.ts:159-173 | A call begins off hold, with no stream and in no conference, as the newest leg, and is announced, as ringing if it comes in |
| `CallLines.CallMission.OnState` | src/openclaw-voice/src/call.ts:369-379 | A call.state event reaches the line of its call |
| `CallLines.CallMission.LiveLines` | src/openclaw-voice/src/call.ts:382-382 | The loop lists the numbers of the lines that are up, in order |
| `CallLines.CallMission.OnEnded` | src/openclaw-voice/src/call.ts:381-408 | A line's end ends the mission exactly if nobody is left (over runs, CallRow.EndsWhenNobodyIsLeft); the active one's moves it to the first line still up, with its resume swallowed if refused |
| `CallLines.CallMission.StartCallParty` | src/openclaw-voice/src/call.ts:1049-1054 | call_party holds the first party, unless two lines are up or the hold is refused |
| `CallLines.CallMission.DialRefused` | src/openclaw-voice/src/call.ts:1055-1055 | A refused dial ends the tool and leaves the first party on hold |
| `CallLines.CallMission.DialReplied` | src/openclaw-voice/src/call.ts:1055-1057 | The dialled call gets the next line number and becomes the active line |
| `CallLines.CallMission.NotAnswered` | src/openclaw-voice/src/call.ts:1070-1074 | No answer: the line is over and the mission goes back to the first party |
| `CallLines.CallMission.SwitchTo` | src/openclaw-voice/src/call.ts:1081-1090 | switch_line swaps or resumes and changes the active line, unless the line is not up, is the active one, or the command is refused |
| `CallLines.CallMission.FinishDrop` | src/openclaw-voice/src/call.ts:1096-1106 | drop_line, after its hang-up: the line is over; the mission ends if no other is up, and goes to one that is if it was the active one |
| `CallLines.CallMission.StartConnect` | src/openclaw-voice/src/call.ts:1114-1119 | connect_lines swaps over to the other line, if exactly two are up |
| `CallRow.MStepKeepsIff` | src/openclaw-voice/src/call.ts:381-408 | Every step of every tool, reply and outside event keeps mission and phone line in agreement if and only if it is in time (or nobody is left). Agreement: the phone line's legs are, in its order, the dropped ones on hold, then the other party up on hold, last the one the mission talks to |
| `CallRow.NoWrongPartyEver` | src/openclaw-voice/src/call.ts:1049-1120 | In every run in time until nobody is left, whoever answers, fails to answer or hangs up at any wait, and whether refused merges are tried or not, at most one leg is off hold and it is the active line's; dropped parties may keep their legs as long as they like |
| `CallRow.EndsWhenNobodyIsLeft` | src/openclaw-voice/src/call.ts:381-391 | In every run from the connected first party, in time or not, the mission is over only if no line is up; and in every run in time it is over if none is |
| `CallRow.ToolsAccepted` | src/openclaw-voice/src/call.ts:1049-1119 | In agreement, with no tool under way: call_party is accepted if and only if no other line is up and no dial has failed; switch_line if and only if the line is up, not the active one, and some line is known to be active; connect_lines if and only if another line is up |
| `CallSteps.EveryStepMoves` | src/openclaw-voice/src/call.ts:369-408 | Every step: which tool is under way after it (a wait for an answer is over when the line is active or its call has ended, or becomes a hang-up), whom the mission talks to (a placed call's party, the first one again, or the first still up when the active one is gone), and that the mission ends with the last line up |
| `CallSteps.HeardMeans` | src/openclaw-voice/src/call.ts:369-379 | The state of a call's line is what was last announced of the call |
| `CallSteps.LineOfIs` | src/openclaw-voice/src/call.ts:348-350 | The line of a call is the first one that has it, and there is none only if no line has |
| `CallSteps.LinesHear` | src/openclaw-voice/src/call.ts:369-379 | But for the end of a call, the lines after any step are those before it with all that the phone line has announced, and the line of a call just placed |
| `CallRow.InOrderIsInTime` | src/openclaw-voice/src/twilio.ts:441-455 | A status callback is in time if it does not report a call on hold as anything but in progress, so callbacks that come in order are |
| `CallRow.HeardUnlessDialFailed` | src/openclaw-voice/src/call.ts:1049-1055 | In every run in time until nobody is left the active line's party is up, and it is on hold if and only if call_party is dialling or a dial has failed before |
| `CallRow.NothingTakesItOff` | src/openclaw-voice/src/call.ts:1049-1120 | Once a dial has failed, call_party, switch_line and connect_lines are all refused |
| `CallRow.HangUpNeedsTheEnd` | src/openclaw-voice/src/call.ts:1069-1106 | The reply to a hang-up leaves no wrong party off hold if and only if, after an unanswered call_party, the call is gone, and after drop_line, the mission is not still with that call while another is up (or nobody is left) |
| `CallRuns.TheEndCanComeLate` | src/openclaw-voice/src/call.ts:1049-1106 | A run from the connected first party that breaks it: another is called, answers and is dropped, and Twilio accepts the hang-up before it reports the end; the dropped party is left off hold |
| `CallRuns.ALateRingingMisleads` | src/openclaw-voice/src/call.ts:1049-1096 | A run to a wrong party with the mission up: the party on hold is dropped, a dial fails, and the dropped call is then reported as ringing; switching to its line takes the other party off hold |
| `CallRuns.AFailedDialLeavesHold` | src/openclaw-voice/src/call.ts:1049-1055 | A run of two steps, hold and a refused dial, after which the only party is on hold |
| `CallRow.ResumeRefused` | src/openclaw-voice/src/twilio.ts:279-287 | resume is accepted if and only if there are legs and all of them are held, so a hung-up leg not yet reported ended blocks it |
| `Report.PrintReport` | src/openclaw-voice/src/report.ts:44-88 | Printing a report, with its backward loop over the log, gives the specified text |
| `Report.StampIs` | src/openclaw-voice/src/report.ts:16-19 | A stamp reads back as the whole minutes and seconds since the start, rounded half up, with at least two digits each |
| `Report.KeepBackwards` | src/openclaw-voice/src/report.ts:73-78 | The backward loop keeps the lines from the index the specification gives |
| `Report.KeepsLongestTail` | src/openclaw-voice/src/report.ts:69-79 | When the log is cut, what is kept fits the room beside the heading, and no longer tail of the log does |
| `Report.FitsIff` | src/openclaw-voice/src/report.ts:44-88 | With a limit, the report fits if and only if what is above the log and the closing line do, with the log's heading if no entry fits: the entries kept never push it over |
| `Report.DeliveredReportFits` | src/openclaw-voice/src/report.ts:26-88 | With header, transcript line and session line of at most 1,444 characters together and fewer than 10,000 log entries, the delivered report is at most 3,000 characters, whatever the summary, goal and log |
| `Report.TopFits` | src/openclaw-voice/src/report.ts:54-67 | The goal gives way: with header, transcript line and session line of at most 1,444 characters, what is above the log and the closing line take at most 2,920, whatever the goal |
| `Report.ReportReads` | src/openclaw-voice/src/report.ts:44-88 | A report's lines, for all options: head, summary, goal if there is one, where the full transcript is, session, the end of the log under a heading that counts it if entries were left out, and the request; a saved report has the whole log and neither pointer nor request |
| `Report.HeadIs` | src/openclaw-voice/src/report.ts:45-53 | The head says whose call it was: the other party with its number unless that is its name, our line with its number if it has one, how it ended and after how many seconds |
| `Report.SummaryMeans` | src/openclaw-voice/src/report.ts:54-56 | The summary is the assistant's, without the white space around it, if there is more to it, clipped to 1,200 characters; else the note that there is none |
| `Report.GoalMeans` | src/openclaw-voice/src/report.ts:60-63 | The goal is told whole if it has at most 200 characters or a third of what the other lines leave; else it is clipped to the larger of these |
| `Report.ClipMeans` | src/openclaw-voice/src/report.ts:26-28 | A text is cut only if too long, and then to what leaves room for the ellipsis, without white space before it |
| `Report.WholeIff` | src/openclaw-voice/src/report.ts:68-72 | The log is told whole if and only if it fits under its heading |
| `Recent.PrintParseAgree` | src/openclaw-voice/src/recent.ts:38-68 | For every report of single-line texts with readable speakers: parsing the saved report gives the recap built in memory (direction, seconds, summary, and the last lines that Recent.LastLinesMean describes) if and only if the party's name holds no other number and the summary is at most 1,200 characters and does not begin like the note that there is none |
| `Recent.LastLinesMean` | src/openclaw-voice/src/recent.ts:33-48 | The last lines of a recap, told from the log: four, or as many as were said if fewer; an entry with n said after it, n below four, is the n-th line from the end; each line is speaker and text without time and line number, its words one space apart, cut after 199 characters if it has more than 200 |
| `Recent.HeadNumber` | src/openclaw-voice/src/recent.ts:56-56 | The first number in the head is the party's exactly when its name holds no other |
| `Recent.FirstNumberMeans` | src/openclaw-voice/src/recent.ts:56-56 | The first number in a text begins at the first plus sign with seven digits after it and takes its digits, up to fifteen; there is none only if there is no such place |
| `Recent.StampMatches` | src/openclaw-voice/src/recent.ts:60-60 | A line is read as stamped exactly if it is "[", digits, ":", two digits, "] " and the rest |
| `Recent.TagMatches` | src/openclaw-voice/src/recent.ts:60-66 | A line number is read exactly if the text is "[line ", digits, "] " and the rest |
| `Recent.HeadSeconds` | src/openclaw-voice/src/recent.ts:57-63 | The seconds read from the head are those printed, wherever else the pattern might match |
| `Recent.HeadDirection` | src/openclaw-voice/src/recent.ts:64-64 | The head begins like an incoming call exactly when the call was one |
| `Recent.EntryIsSaid` | src/openclaw-voice/src/recent.ts:60-60 | A printed log entry is read as something said exactly when it is not an event |
| `Recent.SavedSaid` | src/openclaw-voice/src/recent.ts:60-60 | Of a saved report's lines the parser picks exactly the printed entries that were said, in order |
| `Recent.ParsedTldr` | src/openclaw-voice/src/recent.ts:58-65 | The summary is read back exactly when it was printed whole and does not begin like the no-summary note |
| `Context.FormatConsultContext` | src/openclaw-voice/src/recent.ts:111-121 | The consult's context is at most 3,000 characters and holds the most of the newest messages that fit, at least the last one |
| `Context.FormatRecentContext` | src/openclaw-voice/src/recent.ts:127-148 | The call's context is at most 3,000 characters; messages, oldest first, give way to earlier calls, as few as needed |
| `Context.EmptySections` | src/openclaw-voice/src/recent.ts:136-142 | The context holds the earlier calls under their heading and then the messages under theirs; a section with nothing in it is left out with its heading |
| `Chunks.TrimIsLongest` | src/openclaw-voice/src/mix.ts:15-20 | Dropping whole chunks from the front keeps the longest tail within the limit, or just the last chunk |
| `Chunks.TrimAsYouGo` | src/openclaw-voice/src/call.ts:830-835 | Trimming at every chunk keeps what trimming once at the end would |
| `Chunks.DropOldest` | src/openclaw-voice/src/mix.ts:19-19 | The loop that drops the oldest chunks computes that tail and its bytes |
| `CallMix.CallMix.Model` | src/openclaw-voice/src/mix.ts:15-20 | Model audio joins the queue, which stays the end of everything the model has said; overflow drops its oldest whole chunks |
| `CallMix.CallMix.Clear` | src/openclaw-voice/src/mix.ts:23-26 | A barge-in empties the queue |
| `CallMix.CallMix.Line` | src/openclaw-voice/src/mix.ts:29-37 | A line chunk comes back with each sample the one nearest to the sum of its own and the next of the model's stream; it throws exactly when an odd number of bytes is left to take, never with even chunks |
| `CallMix.CallMix.Take` | src/openclaw-voice/src/mix.ts:39-52 | Taking bytes gives the next stretch of the model's stream across chunk boundaries |
| `CallMix.TakenIsFlat` | src/openclaw-voice/src/mix.ts:39-52 | What is left of the queue is its bytes without the first ones, wherever the chunks begin |
| `CallMix.Mix` | src/openclaw-voice/src/mix.ts:32-36 | The mixing loop writes, of all samples, the nearest to each sum; the model is silent once it is out of samples |
| `Pcm.ClampedIsNearest` | src/openclaw-voice/src/mix.ts:34-34 | Rounding and clamping finds the 16-bit sample nearest to a level, of two as near the greater |
| `Pcm.OnlyNearest` | src/openclaw-voice/src/mix.ts:34-34 | A whole level has one nearest sample: the clamped level |
| `Pcm.SampleIs` | src/openclaw-voice/src/mix.ts:33-34 | A sample is its first byte and 256 times its second, less 65,536 if that is past the largest sample |
| `Pcm.BytesAt` | src/openclaw-voice/src/mix.ts:34-34 | Samples written as bytes read back, each at its place |
| `CallMix.PlaysLikeBytes` | src/openclaw-voice/src/mix.ts:10-53 | In every run in which the model is never further ahead than the queue holds, the queue of chunks mixes in exactly what a flat queue of bytes would |
| `CallMix.TwoPushesAsOneIff` | src/openclaw-voice/src/mix.ts:15-20 | Whatever the queue holds, two chunks leave the bytes in it that they would leave as one if and only if one of them is empty or together they are at most 960,000 bytes |
| `CallMix.ChunkingIsIrrelevant` | src/openclaw-voice/src/mix.ts:10-53 | After any run, one with overflow too, model audio that comes as two such chunks or as one is mixed into the line alike, as long as the queue does not overflow after it |
| `CallMix.ChunkingMatters` | src/openclaw-voice/src/mix.ts:15-20 | Concrete runs of an empty queue where cutting a too big chunk in two changes what the line hears: the second part instead of the beginning of the first |
| `CallMix.PlaysInOrder` | src/openclaw-voice/src/mix.ts:10-53 | In every run, the queue overflowing as it may, what is mixed into the line are stretches of what the model said, in order, no byte of it twice |
| `Preroll.Ears.OnDownlink` | src/openclaw-voice/src/call.ts:800-807 | A chunk goes to the voice model, or while muted to the preroll |
| `Preroll.Ears.KeepPreroll` | src/openclaw-voice/src/call.ts:830-835 | The preroll stays within 64,000 bytes or one chunk |
| `Preroll.Ears.OnLineSound` | src/openclaw-voice/src/call.ts:816-828 | Speech unmutes; the tenth second without it mutes, and only while the navigator runs |
| `Preroll.Ears.DoUnmute` | src/openclaw-voice/src/call.ts:838-848 | Unmuting sends the preroll, in order, and empties it |
| `Preroll.Ears.StopNavigator` | src/openclaw-voice/src/call.ts:759-765 | The navigator's end unmutes |
| `Preroll.AudioIsConserved` | src/openclaw-voice/src/call.ts:800-848 | However chunks and seconds interleave, the chunks received are exactly those of the muted and unmuted stretches in order, and the voice model has been sent all of every unmuted stretch and, of each muted one that is over, the longest tail within 64,000 bytes or its last chunk |
| `Preroll.MutedMeans` | src/openclaw-voice/src/call.ts:816-828 | Muting told from the events alone: the navigator has not stopped, and there is a place in the call after which no second had speech in it and at least ten seconds went by |
| `Preroll.MutedIff` | src/openclaw-voice/src/call.ts:816-828 | The model is muted if and only if the navigator runs and some last part of the call holds at least ten seconds, none of them speech |
| `G711.MuLawEncode` | src/openclaw-voice/src/g711.ts:14-24 | The sample is rounded and clipped, the mask loop finds the segment of its biased magnitude, and the byte is its code |
| `G711.ErrorBound` | src/openclaw-voice/src/g711.ts:8-24 | For every sample, decoding its code is within 2^(e+2) of the sample clipped to 32,635, where e is its segment (section 3 of ITU-T G.711) |
| `G711.Monotone` | src/openclaw-voice/src/g711.ts:8-24 | Decoding after encoding never reverses the order of two samples |
| `G711.ReencodeIff` | src/openclaw-voice/src/g711.ts:8-24 | Encoding a decoded byte gives it back, except 0x7F, which becomes 0xFF |
| `G711.Levels` | src/openclaw-voice/src/g711.ts:8-12 | What the bytes decode to: 128 levels from zero up, in steps of 8 that double after every 16 levels (the step in which they double is half as wide again), and the same below zero (section 3 of ITU-T G.711) |
| `G711.EncodeIff` | src/openclaw-voice/src/g711.ts:14-24 | Which byte a sample gets: that of the level in its own direction whose half step it is in, the last level however loud |
| `Resample.Fir.Push` | src/openclaw-voice/src/g711.ts:45-59 | The ring buffer gives, for any taps, the convolution with the last n inputs, zeros before the first |
| `Resample.Fir.Sum` | src/openclaw-voice/src/g711.ts:50-55 | The loop walks the ring backwards and sums taps times inputs |
| `Resample.MuLawToPcm16k.Process` | src/openclaw-voice/src/g711.ts:64-75 | A chunk of n bytes gives 4n bytes: the next samples of the whole stream zero-stuffed, filtered and doubled |
| `Resample.UpsampleChunks` | src/openclaw-voice/src/g711.ts:64-75 | A new converter fed any chunks one by one gives, for any taps, the conversion of the whole stream, four bytes a byte |
| `Resample.UpsampledAt` | src/openclaw-voice/src/g711.ts:66-73 | Sample k of that conversion is the 16-bit sample nearest to twice the convolution of the taps with the first k + 1 samples of the decoded stream, a zero after each |
| `Resample.StuffedAt` | src/openclaw-voice/src/g711.ts:68-71 | The stuffed stream is each decoded byte at its place and a zero after it |
| `Resample.InputWeighsItsTap` | src/openclaw-voice/src/g711.ts:45-59 | The filter is linear in its inputs: changing the input d steps back changes the output by tap d times the change, and not at all past the last tap |
| `Resample.ConvOfSilence` | src/openclaw-voice/src/g711.ts:45-59 | Silence filters to zero |
| `Resample.Pcm16kToMuLaw.Process` | src/openclaw-voice/src/g711.ts:78-91 | A chunk gives the next bytes of the whole stream of samples filtered and halved |
| `Resample.DownsampleChunks` | src/openclaw-voice/src/g711.ts:78-91 | A new converter fed any chunks one by one gives the conversion of all the samples it can read in them; if every chunk holds whole samples, that of the whole stream, half the samples rounded up |
| `Resample.DownsampledAt` | src/openclaw-voice/src/g711.ts:83-89 | Byte k of the conversion is the code of the convolution of the taps with the samples up to 2k |
| `Resample.ChunksReadAsOneIff` | src/openclaw-voice/src/g711.ts:81-85 | Two chunks are read as one would be, whatever is in them, if and only if the first holds whole samples or the second is empty: an odd byte left over is dropped |
| `Ending.EndingMission.DoFinish` | src/openclaw-voice/src/call.ts:416-434 | The first call begins the ending: what is up is to be hung up, newest first, unless it is handed off; later calls only add their end note |
| `Ending.EndingMission.GoOn` | src/openclaw-voice/src/call.ts:432-437 | Hang-ups go out one after another; then the last words are waited for, if asked |
| `Ending.EndingMission.FlushNotes` | src/openclaw-voice/src/call.ts:438-439 | End notes that waited are logged, in order |
| `Ending.EndingMission.OnLineEnded` | src/openclaw-voice/src/call.ts:381-391 | The last line's end ends the mission with an end note; another's is noted at once |
| `Ending.EndingMission.AddLine` | src/openclaw-voice/src/call.ts:342-346 | The call that was being placed gets its line, whatever the mission is waiting for |
| `Ending.EndingMission.OnState` | src/openclaw-voice/src/call.ts:369-379 | A call.state event tells that a line is not over, unless nothing is heard any more |
| `Ending.EndingMission.MarkOver` | src/openclaw-voice/src/call.ts:1069-1096 | A tool takes a line for over that it has hung up, before its end is reported |
| `Ending.EndingMission.Report` | src/openclaw-voice/src/call.ts:440-445 | The log as it is then is reported |
| `Ending.OneEnding` | src/openclaw-voice/src/call.ts:369-471 | In every run without a merge, however often and in whatever order the ending is asked for: at most one report, by which a hang-up was sent to every line up when the ending began, newest first (none if handed off); every end note received before it is in it once, in order; none is logged before the last words were waited for |
| `Ending.EveryStepMoves` | src/openclaw-voice/src/call.ts:369-445 | Every step: the ending begins with a finish, or with the last party's end on an answered call, and with nothing else; it then hangs up what is up at that time, or hands off, and waits first for the newest call's hang-up, the last words or the session; lines, notes, remarks and the log change as told and by no other step |
| `Ending.NothingPutsItOff` | src/openclaw-voice/src/call.ts:416-445 | Each wait that ends brings the report one wait nearer, and no other event puts it off |
| `Ending.AllHungUpIff` | src/openclaw-voice/src/call.ts:416-445 | In every run without a merge or hand-off, with different call ids, once the report is out: every line still up was sent a hang-up if and only if each line added since the ending began is over or was hung up by the tool that called it; the ending itself hangs up none of those |
| `Ending.NoDialAllHungUp` | src/openclaw-voice/src/call.ts:416-445 | In every run without a merge or hand-off in which no call was being placed when the ending began: no line is added after, and once the report is out every line still up was sent a hang-up |
| `Ending.LateDialLeavesALine` | src/openclaw-voice/src/call.ts:433-434 | In every state of an ending in which a call is still being placed there is a way on to the report in which that call is answered, stays up and is never hung up |
| `Ending.AnsweredLateStaysUp` | src/openclaw-voice/src/call.ts:433-434 | Such a run from the start: the first party is up and another is being called when the call runs out of time |
| `Navigator.MenuNavigator.OnLineText` | src/openclaw-voice/src/navigator.ts:167-180 | Line text joins the unfinished sentence; whole sentences become an entry |
| `Navigator.MenuNavigator.FindBreak` | src/openclaw-voice/src/navigator.ts:174-174 | The search finds where the pattern's greedy match ends: the last sentence mark before white space |
| `Navigator.MenuNavigator.OnAssistantSaid` | src/openclaw-voice/src/navigator.ts:183-188 | What the assistant says ends the unfinished sentence and becomes an entry |
| `Navigator.MenuNavigator.OnPressed` | src/openclaw-voice/src/navigator.ts:191-198 | A press is kept and entered in the transcript where it happened |
| `Navigator.MenuNavigator.StartCheck` | src/openclaw-voice/src/navigator.ts:233-245 | A check starts only when none is in flight and something is new or the line holds |
| `Navigator.MenuNavigator.OnAnswer` | src/openclaw-voice/src/navigator.ts:247-273 | An answer is acted on only if sure enough, and not after the navigator stopped; hand-off and hang-up stop it |
| `Navigator.MenuNavigator.OnPressReply` | src/openclaw-voice/src/navigator.ts:274-281 | A failed press is taken out of presses and transcript, whatever came since |
| `Navigator.MenuNavigator.Transcript` | src/openclaw-voice/src/navigator.ts:213-221 | The transcript sent is the shortest end of the entries that reaches 4,000 characters, or all of them |
| `Navigator.RunAgrees` | src/openclaw-voice/src/navigator.ts:157-290 | In every run: keypad entries are the presses that stood, one for one and in order; the line's entries and unfinished sentence hold exactly the non-blank characters received, in order; nothing is pressed, handed off or hung up after a hand-off or hang-up |
| `NavigatorChecks.AnswerMeans` | src/openclaw-voice/src/navigator.ts:247-273 | An answer is acted on if and only if it is not to wait, its probability reaches the threshold, to press also the key's and there is such a key, and nobody stopped the navigator; a press adds one key press and waits, a hand-off or hang-up stops it, and otherwise nothing changes, but a failed answer makes it look again |
| `NavigatorChecks.PressMeans` | src/openclaw-voice/src/navigator.ts:191-198 | A press is entered after all that the line has said, with its time, keys and presser, and the navigator's own is not looked at until more is said |
| `NavigatorChecks.SaidMeans` | src/openclaw-voice/src/navigator.ts:183-188 | What the assistant said is entered after all that the line has said, trimmed, with its time |
| `NavigatorChecks.LineTextMeans` | src/openclaw-voice/src/navigator.ts:167-180 | Up to the last sentence mark before white space the line's text becomes an entry, of the time its first part was heard; the rest waits, and counts from now |
| `NavigatorChecks.WordsAreLookedAt` | src/openclaw-voice/src/navigator.ts:233-245 | In every run, if somebody has talked, nobody has checked since and the navigator has done nothing since, the next check starts unless it is stopped or one is still on its way |
| `NavigatorChecks.NothingNewNothingChecked` | src/openclaw-voice/src/navigator.ts:233-245 | In every run, after a check has begun or the navigator has pressed a key, none starts on a line that isn't quiet until somebody talks or something fails |
| `NavigatorChecks.ChecksElse` | src/openclaw-voice/src/navigator.ts:233-245 | A quiet line is checked unless the navigator is stopped or waiting; a failure makes it look again; while stopped or waiting it never looks |
| `NavigatorChecks.StoppedIsDeaf` | src/openclaw-voice/src/navigator.ts:167-198 | A stopped navigator hears nothing and does nothing |
| `Navigator.FailedPressIsForgotten` | src/openclaw-voice/src/navigator.ts:269-281 | A press that fails, with any line text, speech and assistant presses meanwhile, leaves presses, keypad entries and words as if the navigator had decided to wait, and the next check looks again |
| `Otacon.OtaconLink.OnOpen` | src/openclaw-voice/src/otacon.ts:58-63 | An open socket resets the retry delay |
| `Otacon.OtaconLink.OnClose` | src/openclaw-voice/src/otacon.ts:68-86 | A close settles every pending command and mark and sets the next try, a minute away if another client took over |
| `Otacon.OtaconLink.RejectAll` | src/openclaw-voice/src/otacon.ts:71-75 | Every pending command is rejected and its timer cleared |
| `Otacon.OtaconLink.ClearMarks` | src/openclaw-voice/src/otacon.ts:76-77 | Every mark resolves as cleared |
| `Otacon.OtaconLink.SendCommand` | src/openclaw-voice/src/otacon.ts:146-158 | A command is refused without an open socket; else it is pending under a new id with its timer |
| `Otacon.OtaconLink.OnReply` | src/openclaw-voice/src/otacon.ts:108-120 | A reply settles the pending command with its id; any other changes nothing |
| `Otacon.OtaconLink.OnTimeout` | src/openclaw-voice/src/otacon.ts:151-154 | A timeout settles its command |
| `Otacon.OtaconLink.PutMark` | src/openclaw-voice/src/otacon.ts:166-173 | A mark waits under a new id if the socket is open |
| `Otacon.OtaconLink.OnMark` | src/openclaw-voice/src/otacon.ts:121-128 | A mark message resolves the mark with its name; any other changes nothing |
| `Otacon.SettledOnce` | src/openclaw-voice/src/otacon.ts:68-173 | In every run through any number of reconnects, with one socket at a time: every command that is not pending was settled exactly once, by ack, error, timeout or close, every mark likewise; timers are exactly the pending commands'; nothing is out while the socket is down |
| `Otacon.CommandFate` | src/openclaw-voice/src/otacon.ts:68-158 | In every run a pending command is settled by the first step that answers it, as acknowledged or refused by its reply, timed out, or disconnected by a close, and is pending until then |
| `Otacon.MarkFate` | src/openclaw-voice/src/otacon.ts:68-173 | In every run a mark that is out is resolved by the first step that does so, its message (played or cleared) or a close (cleared), and is out until then |
| `Otacon.SocketMoves` | src/openclaw-voice/src/otacon.ts:41-86 | Every step: there is a socket from a start, or a retry unless stopped, to its close; it is open from its opening; after a close, unless stopped, the next is made in a minute if another client took over, else in 1, 2, 4, 8 or 15 seconds as often as it has failed; only over an open one do commands and marks go out |
| `Otacon.IdsAreNew` | src/openclaw-voice/src/otacon.ts:146-173 | Ids are never reused, across reconnects too |
| `Otacon.ClosedOk` | src/openclaw-voice/src/otacon.ts:68-77 | A close leaves nothing pending and nothing settled twice |
| `Otacon.BackoffIs` | src/openclaw-voice/src/otacon.ts:82-84 | The retry delay after n failures: 1, 2, 4, 8, then 15 seconds |
| `LineWaits.LineBase.DoWaitFor` | src/openclaw-voice/src/line.ts:86-102 | A wait resolves at once if the call is in an awaited state; else it listens and runs a timer |
| `LineWaits.LineBase.OnCall` | src/openclaw-voice/src/line.ts:95-99 | A call event resolves every wait it answers |
| `LineWaits.LineBase.OnTimer` | src/openclaw-voice/src/line.ts:100-100 | A timeout resolves with the call as it is, if it is up |
| `LineWaits.WaitsResolveOnce` | src/openclaw-voice/src/line.ts:86-103 | In every run each wait has resolved once, with what it asked for, the call's end or a timeout, leaving no timer or listener; or not yet, and has both |
| `LineWaits.WaitFate` | src/openclaw-voice/src/line.ts:86-103 | In every run a wait resolves with the first thing that answers it: a state of its call that it waits for, the call's end, or, when its time runs out, the call as it then is, if it is up |
| `LineWaits.CallsAreKnown` | src/openclaw-voice/src/line.ts:86-103 | In every run the calls known are those last reported and not as ended |
| `LineWaits.AsksMeans` | src/openclaw-voice/src/line.ts:87-89 | A wait resolves at once if and only if the call is in a state it waits for, with that state |
| `LineWaits.EventEndsWaits` | src/openclaw-voice/src/line.ts:95-99 | An event that answers a wait ends it |
| `Fleet.FindIdx` | src/fleet_agent/util/ports.py:159-162 | The search for the next index ends, with the least one that is not used |
| `Fleet.FleetFiles.AllocatePorts` | src/fleet_agent/util/ports.py:150-170 | A serial gets its saved ports, or those of a new index, and they are saved; rejected serials get none |
| `Fleet.FleetFiles.SaveAssignment` | src/fleet_agent/util/ports.py:103-136 | The first entry of the serial gets the index, or a new entry does |
| `Fleet.FleetFiles.ReleaseDongle` | src/fleet_agent/util/ports.py:175-200 | A released dongle leaves the cache and its entry |
| `Fleet.FleetFiles.AllocateADongle` | src/fleet_agent/bluetooth/dongle.py:190-232 | A phone keeps its dongle if it is plugged in, else gets the first free one, saved to cache and file |
| `Fleet.FleetFiles.SaveDongleAssignment` | src/fleet_agent/bluetooth/dongle.py:129-158 | A dongle assignment is written to the cache, if filled, and the file |
| `Fleet.FleetFiles.HandlePhoneLost` | src/fleet_agent/loss_handler.py:19-52 | A lost phone's dongle is released |
| `Fleet.FleetFiles.HandleDongleLost` | src/fleet_agent/loss_handler.py:62-116 | The first running agent that uses the lost dongle is found, and its phone gets the first live one no other phone has, if there is one |
| `Fleet.FleetFiles.Reopen` | src/fleet_agent/util/ports.py:54-81 | A restart purges rejected serials and empties the cache |
| `Fleet.StepKeeps` | src/fleet_agent/util/ports.py:88-241 | Allocations, losses and restarts keep: each serial once in the file, no index or dongle shared, no rejected serial with ports, the cache in agreement with the file |
| `Fleet.NothingIsShared` | src/fleet_agent/util/ports.py:150-241 | Over any sequence of port and dongle allocations, phone and dongle losses and restarts from an empty file, no two serials share an index or a dongle, and the cache says what the file says |
| `Fleet.EveryPhoneMoves` | src/fleet_agent/util/ports.py:88-241 | What every operation does to every phone: only one that asks gets ports, once; one that asks for a dongle keeps its own if that is plugged in, or else gets the first that is no other phone's; a lost phone has none; the first phone to use a lost dongle gets the first live one that is no other phone's; a purged one has none; nothing else changes |
| `Fleet.RejectedIs` | src/fleet_agent/util/ports.py:12-13 | The serials turned away: none, test, fake or phantom in any case, and anything that ends in abc in any case |
| `Fleet.PortsClashIff` | src/fleet_agent/util/ports.py:40-52 | In every run two phones have different ports of each kind; a port of one kind is the other phone's of another kind if and only if their indices are 1,010, 2,181 or 3,191 apart |
| `Fleet.IndexIsForLife` | src/fleet_agent/util/ports.py:150-165 | A serial's index never changes, whatever happens after |
| `Fleet.NewIndexIsLeast` | src/fleet_agent/util/ports.py:159-162 | A new index is the least that no phone has |
| `Fleet.GetsDongleIff` | src/fleet_agent/bluetooth/dongle.py:209-232 | A phone gets a dongle if and only if one that is plugged in is no other phone's, and keeps its own if that is |
| `Fleet.ReassignedIff` | src/fleet_agent/loss_handler.py:62-116 | The orphaned phone gets a live dongle that is no other phone's whenever there is one; otherwise nothing changes |
| `Fleet.LostPhoneFreesDongle` | src/fleet_agent/loss_handler.py:43-52 | A lost phone has no claim on its dongle, which is then free for any phone |
| `Phones.PhonesFile.Load` | src/server/src/phone.rs:344-378 | Loading returns the cleaned list and leaves exactly that in the file |
| `Phones.PhonesFile.Save` | src/server/src/phone.rs:386-423 | Saving writes the entries in memory and, after them, the disk's entries of phones memory does not know |
| `Phones.CleanedIsClean` | src/server/src/phone.rs:350-369 | No registry-style entry of a phone with a local entry is left, and cleaning again changes nothing |
| `Phones.CleanedMeans` | src/server/src/phone.rs:350-369 | Cleaning keeps exactly the entries that are not a registry-style entry of a phone that is also there, by its serial, under another kind of id |
| `Phones.RegistryIdIs` | src/server/src/phone.rs:350-357 | A registry id is "phone-" and digits, at least one |
| `Phones.NoSerialLost` | src/server/src/phone.rs:358-369 | Cleaning loses no serial |
| `Phones.MergeLosesNothing` | src/server/src/phone.rs:401-408 | A serial is in the merged list exactly when it was in memory or on disk |
| `Phones.CleanupSticks` | src/server/src/phone.rs:371-375 | The merge brings no dropped duplicate back, in the cleanup's own save or any later one of at least those phones |
| `Phones.OthersAre` | src/server/src/phone.rs:403-408 | What the merge adds from disk is exactly the entries with a serial that memory does not know |
| `Phones.PopulateWithRetry` | src/server/src/phone.rs:114-139 | The value of the first attempt that answers, after at most one attempt more than there are delays, each but the first after its delay; none if it is already there |
| `Reconnect.ReconnectAgent.CancelTimer` | src/fleet_agent/bluetooth/reconnect.py:52-55 | Cancelling removes the path's pending source |
| `Reconnect.ReconnectAgent.ScheduleReconnect` | src/fleet_agent/bluetooth/reconnect.py:104-109 | Scheduling replaces whatever was scheduled |
| `Reconnect.ReconnectAgent.AttemptConnect` | src/fleet_agent/bluetooth/reconnect.py:58-101 | An attempt stops if the device is gone, unpaired, connected or being connected; else it connects |
| `Reconnect.ReconnectAgent.ConnectFailed` | src/fleet_agent/bluetooth/reconnect.py:82-94 | A failed connect schedules the next attempt, unless the device is gone |
| `Reconnect.ReconnectAgent.OnDisconnect` | src/fleet_agent/bluetooth/reconnect.py:118-126 | A disconnect schedules an attempt in three seconds |
| `Reconnect.ReconnectAgent.OnAppears` | src/fleet_agent/bluetooth/reconnect.py:157-172 | A paired device is watched, and if not connected tried in two seconds |
| `Reconnect.ReconnectAgent.OnRemoved` | src/fleet_agent/bluetooth/reconnect.py:174-180 | A removed device has no attempt scheduled |
| `Reconnect.OneTimerEach` | src/fleet_agent/bluetooth/reconnect.py:52-180 | Under every interleaving of timers, replies, disconnects, devices added and removed: each path has at most one live timer, the pending one; no dead timer is ever cancelled; every delay is between 2,000 and 60,000 ms |
| `Reconnect.EveryDeviceIsDue` | src/fleet_agent/bluetooth/reconnect.py:52-180 | In every run, after every step, when each device is tried next: in 3 seconds after a disconnect, 2 after it appears unconnected, after a failure in twice the time up to a minute or in half a minute if one was under way, not at all once removed or gone, and else as before |
| `Reconnect.EveryCallIsMeant` | src/fleet_agent/bluetooth/reconnect.py:58-101 | A Connect call is made exactly by the timer of a device that may be paired, is not known to be connected and has no call under way; a device counts as connecting from its call to the reply, a disconnect or its removal |
| `Reconnect.OneCallKeptIff` | src/fleet_agent/bluetooth/reconnect.py:52-180 | A step keeps each path to one Connect call, and its flag to whether that call is out, if and only if it is not the disconnect or removal of a device whose call is in flight |
| `Reconnect.TwoCallsInFlight` | src/fleet_agent/bluetooth/reconnect.py:118-126 | A run to two Connect calls of one device in flight: a disconnect comes while the first is out, and the attempt it schedules connects again |
| `Reconnect.OnErrorOk` | src/fleet_agent/bluetooth/reconnect.py:82-94 | After a failure the next delay is twice the last, at most a minute, or half a minute if a connect was under way; none if the device is gone |

## Left out

- The voice model, the transcriber, the decision model and the speech detector: their outputs are arbitrary inputs.
- HTTP, WebSocket, ADB and D-Bus calls: each is a reply or event that may come at any time or not at all.
- Webhook signatures and stream tokens: only accepted requests are modelled.
- Listen-in calls on Twilio: their legs are outside the line's calls.
- The `dial` and `hangup` requests themselves, and the wait for a new stream after a key press: their replies are steps.
- Resample.Fir.Push: sums over real numbers, so the rounding of floating-point arithmetic is not modelled; taps are any reals, not the windowed sinc of the source.
- Text is counted in UTF-16 code units; dropping half a surrogate pair at a cut (recent.ts) is not modelled.
- Recent.PrintParseAgree: is about reports whose end is not before their start; a negative duration prints a minus sign the parser does not read. Log entries always have a speaker.
- CallMix.PlaysLikeBytes: is about runs in which the queue never overflows; those in which it does are in CallMix.PlaysInOrder and CallMix.CallMix.Model.
- Resample.Fir.Sum: sums over real numbers, as Fir.Push does.
- Context.FormatConsultContext: takes printed lines, as FormatRecentContext does.
- Context.FormatRecentContext: takes printed lines; how long ago a call was and the cleaning of OpenClaw's metadata from messages are not part of this model.
- CallLines.CallMission and Ending.EndingMission are two halves of one class of call.ts, its lines and its end; what both keep, the numbered lines, is in PartyLines.
- Ending.OneEnding: is about runs that never merge lines; a `finish` during the merge command can report too.
- CallRow.NoWrongPartyEver: ends where nobody is left or Twilio accepts the first redirect of a merge; contacts and notes to the voice model are not in it, and other reasons to end a mission may come after any step.
- Twilio.TwilioLine.StartMerge: refuses a second merge while one is under way; the source does not (twilio.ts:302-304) and would run the two side by side.
- Navigator.MenuNavigator.StartCheck: whether the line holds is a parameter, so the timing of looks at a quiet line (every 15 seconds) is not modelled; the press callback answers true or false and never throws, as the mission's does.
- Navigator.FailedPressIsForgotten: the line's words are compared character by character; where they are split into entries may differ, as the press ends the unfinished sentence.
- Otacon.SettledOnce: leaves out the `hello` message's copy of the call list and what replies carry.
- Fleet.NothingIsShared: the running agents are a parameter of a dongle's loss, not part of the state; addresses are in upper case, as the adapter listing gives them; parsing that listing is not part of this model. Serials are compared with the reject pattern in ASCII.
- Phones.PhonesFile.Load: a registry id is `phone-` and ASCII digits; the source's pattern also takes other Unicode digits. The other fields of an entry are one opaque text.
- Lost updates between the Python and Rust writers of phones.json: every operation is one atomic step.
- The Bluetooth pairing flow, the reconciler, the outbox, the registry, the web UI and the CLI.
