# Verified model of the ccc daemon

ccc is a Go daemon that runs coding agents ("bots") on a machine and talks to their owner over Telegram.
This project models the parts of it whose correctness is least visible from any single function and proves
what they promise, for every input and every run:

- **Messages to the owner.** `TelegramRender` turns markdown into Telegram HTML by mutual recursion,
  `TelegramSplit` cuts the HTML into posts and closes and reopens tags at each cut, `TelegramPlain` strips it
  again, `TelegramReply` puts them together; `TelegramMarkup`, `TelegramSpans` and `TelegramLines` say what
  the markup means on the text alone: code and emphasis, links, and what becomes of each line of a reply.
  `TelegramGrammar` gives the rendered language a meaning of its own: a tokenizer, a stack machine that
  accepts exactly the complete messages, and the sequence of visible glyphs, each with the tags that are open
  around it; `TelegramRunes` relates its tokens to UTF-8.
- **Turns.** `TurnQueue` is the queue and inbox as a transition system over database rows, `Runners.Runner` the
  class that takes its steps in place. `TurnQueueSteps` says row by row what each operation changes,
  `TurnQueueMessages` that a delivered message is carried whole, `TurnQueueWindow` when General's timeout starts
  a worker, in the terms of the tables. `TurnQueueSafety` proves conservation, exclusion and order over all
  runs; `TurnQueueLoops` models the goroutines and their wake-ups, proves that all they do is take those steps,
  one loop per bot, and that no wake-up is lost; `TurnQueueReports` proves that a worker's report is lost only
  to /stop or to a crash at one point, `TurnQueueAnswers` what becomes of the answer such a report is made of;
  `TurnQueueTimeouts` that General's timeout chain ends, `TurnQueueEpisodes` that it starts at most one worker;
  `TurnQueueEnds` how far the end of a turn comes, and `TurnQueueRequests` what becomes of the owner's request,
  and what the worker is told. `TurnQueueHistory` holds what no step takes back.
- **Background jobs.** `Background` interleaves the single SQL statements of four processes, `BackgroundWakes`
  says which jobs wake their bot, that no running job is forgotten, and every way in which a job's status
  changes; `Supervisors.Supervisor` is the scheduler's side in place.
- **Growth control.** `Retention` (deleting and trimming turns), `Compaction` (compaction and its undo as
  transactions), `MemoryList` (the list a compaction turn prints and parses) and `MemoryAnswers` (what an
  answer says line by line, and that it is stored as it was read).
- **Files and text.** `Upload` (files in chunks), `LineDiff` (what a watch reports), `Redact` (known secrets),
  `EnvFile` (the environment file), `McpBlock` (the block kept in `config.toml`).

`dafny verify dfyconfig.toml` checks everything.

## How the source is represented

A Go string is a byte string; it is a Dafny `string` with one character per byte, and every theorem holds for
all strings. `GoStrings` holds the used part of Go's `strings`; `WhiteSpace` ties its trimming to the code
points that are white space. Tables are sequences in id order, so that an id is a position, or maps where a
unique index is the point. Loops, mutable maps and row updates are methods of classes, each proved equal to a
step of the specification; the theorems are about the specification and its runs. `bot 0` is General.

What the world decides is an input of a step: model output, exit codes, names, clocks (a number that never
goes back), random ids, what other processes do in between. The assumptions behind the protocol models:

- Folding the queue and the first update of the turn are one step, and so are creating a turn and marking its
  inbox row, starting a worker, and the fallback posts of one turn. A crash inside one of these is not
  covered: the merged inputs are already closed between the first two. The end of a turn is five steps (row,
  reply, hand-off, follow-up, status and relay), and a crash may come between any two.
- Recovery runs before any loop. The program starts its hub client a little earlier (listenv3.go:212-229).
- Database writes succeed. In `TurnQueue` a bot may start a turn at any time it is not inside `execute`;
  that nothing starts one at another time is proved in `TurnQueueLoops`, where a loop first looks whether the
  bot waits for the owner or is archived.
- Upload requests are handled one at a time. Background jobs need no such assumption.

## Where the code does less than it says

- *One timeout, one hand-off window.* chief.go:88-94 means the window in which General may already have handed
  a request off to open when the turn starts. The runner holds a copy of the row from before the start
  (runner.go:443-470), so it opens when the row was created.
  `TurnQueueRequests.EarlierHandoffHidesRequest` is a run in which a request gets neither a worker nor a
  follow-up because of it.
- *A timed-out owner's request can get nothing.* Whose work a turn is, is read off its oldest row only
  (chief.go:101-106). An owner's request that was merged into the turn of a worker's report is dropped when
  that turn times out, although General sent nothing (`TurnQueueRequests.MergedRequestGetsNothing`); so is one
  that was merged into a follow-up whose episode already has a worker (`TurnQueueRequests.BehindFollowUp`).
  `TurnQueueRequests.OwnerTimesOut` says exactly when a worker is started and when a follow-up is queued,
  whatever comes between the steps of the end.
- *A timed-out request can be lost.* The row is closed (runner.go:781-784) before the hand-off and the
  follow-up (runner.go:786, 806-808), and recovery looks at running rows only (listenv3.go:310). A crash in
  between leaves the owner's request without a worker and without a follow-up, although both were due
  (`TurnQueueRequests.CrashLosesRequest`), and nothing makes up for it later
  (`TurnQueueRequests.CrashDropsRequest`); a crash after the hand-off still loses the follow-up. There is no
  third way: `TurnQueueEnds.TakenOrLost`.
- *The worker is told only part of it.* Owner's inputs merged into a turn that began with a request do not
  reach the worker (runner.go:443-468, chief.go:111-130); `TurnQueueRequests.WorkerIsTold` says which do. When
  the turn began with something else, the worker is told what the owner asked last, even if that came in
  after the turn was over and belongs to another one (`TurnQueueRequests.LateRequestIsTold`).
- *A worker's report can be lost.* Recovery looks at running rows only (listenv3.go:310), so a crash between
  the update of General's row and its reply or fallback loses the reports the turn carries
  (`TurnQueueReports.CrashLosesReport`); apart from /stop nothing else does
  (`TurnQueueReports.EveryReportIsPlaced`). In the same way a crash between the update of a worker's row
  (runner.go:566) and its relay (runner.go:607) loses the worker's answer before there is a report of it
  (`TurnQueueAnswers.CrashLosesAnswer`, `TurnQueueAnswers.CrashBeforeReport`).
- *An answer is not always what is reported.* No report is queued while another of the same worker is pending,
  whatever that one says (runner.go:679-681, 691-700). `TurnQueueAnswers.AnswerReported` says which of the three it was
  for every answer: reported, another report pending, or no report due.
- *A refused wake-up is not repeated.* A message delivered to a session after it was archived leaves a queued
  turn; bringing the session back (store.go:830-838) wakes nobody (`TurnQueueLoops.UnarchiveStrands`). It goes
  wrong exactly when the bot has a turn queued and nobody is about to look at it, which can be read off before
  the call (`TurnQueueLoops.FreeingStrands`), and no other move does it (`TurnQueueLoops.BecomesStranded`).
- *Redaction is not complete for every value.* secrets.go:248-249 promises that known values are replaced. A
  value that starts or ends with `*` or contains `***` can come back out of the replacement; exactly those can
  (`Redact.CompleteIffStarSafe`). All others are gone, whatever else is in the list
  (`Redact.RedactionIsComplete`).
- *The environment file is read only up to its first long line.* A line that is longer than 64 KiB with its
  newline stops the scanner, and its error is not looked at (envfile.go:183-196). `EnvFile.FileReadsBack` gives the exact
  condition under which all values come back.
- *The printed memory list can be unreadable.* Keys are not checked when they are stored.
  `MemoryList.PrintThenParse` says exactly which lists survive the round trip.

## Model

| member | source | states |
|---|---|---|
| TelegramGrammar.NextToken | markdown.go:397-424 | the tokenizer always moves forward and never past the end |
| TelegramRunes.RuneIsWhole | markdown.go:397-424 | every encoded code point is read as one rune, whatever follows it |
| TelegramRunes.RuneIsEncoded | markdown.go:397-424 | and what is read as more than one byte is an encoded code point |
| TelegramRunes.NoBoundaryInRune | markdown.go:397-424 | no token boundary, and so no cut, lies strictly inside an encoded code point, wherever it stands and whatever surrounds it |
| TelegramRunes.Utf8IsEncoded | markdown.go:397-424 | the texts that are called well-formed UTF-8 are the encodings of code points |
| TelegramGrammar.EntityToken | markdown.go:397-424 | each of the three entities the renderer emits is read as one token, so no cut can fall inside it |
| TelegramGrammar.TraceSplits | markdown.go:397-424 | reading a text is reading any token-aligned prefix and then, under the tags open there, the rest |
| TelegramGrammar.WalkConcat | markdown.go:25-40 | two messages complete under the same open tags are complete one after the other |
| TelegramRender.EscapeIsOnePass | helpers.go:16-21 | the three chained replacements escape each byte of the input exactly once |
| TelegramRender.ComputeInlineCode | markdown.go:169-188 | the scan computes the code span at a backtick, if there is one |
| TelegramMarkup.CodeSpanIs | markdown.go:169-198 | a run of backticks opens a code span if and only if there is a later run of exactly as many and not only white space up to the first one; that one closes it, never part of a run; the text between is escaped |
| TelegramMarkup.LinkIff | markdown.go:200-224 | a link is recognised if and only if the label ends at the first bracket, a parenthesis follows at once, the target ends at the first closing one, and the trimmed text between is acceptable; that is the target |
| TelegramSpans.LinkRenders | markdown.go:200-224 | whatever stands before it, when the scan comes to it: a label in brackets and an acceptable target in parentheses become a link to the trimmed target, shown as the rendered label, or as the target if the label is blank |
| TelegramSpans.UrlIs | markdown.go:18-20 | acceptable is a target that is not empty, has no blank, quote or angle bracket, and begins with one of the four schemes |
| TelegramSpans.SchemeIs | markdown.go:226-234 | the scheme is compared byte by byte without regard to case; the one code point outside ASCII whose lower case is in a scheme is set apart |
| TelegramRender.FindEmphasisEnd | markdown.go:239-271 | the loop computes `EmphasisEnd`, passing over code spans |
| TelegramMarkup.EmphasisEndIsFirst | markdown.go:239-271 | no earlier delimiter that may close is passed over, unless it is inside a code span or overlaps the delimiter before it |
| TelegramRender.InlineLink | markdown.go:200-224 | a link span is produced exactly when label, brackets and scheme are acceptable; its label is rendered recursively |
| TelegramRender.InlineEmphasis | markdown.go:239-271 | an emphasis span is produced exactly for a non-blank, properly delimited content, which is rendered recursively |
| TelegramRender.RenderInlineTelegramHTML | markdown.go:127-162 | the loop computes the recursive rendering of the line; code wins over links, links over emphasis |
| TelegramRender.CollectFencedBlock | markdown.go:44-53 | the body is the lines up to `FenceEnd`, or up to the end of the text if the block is never closed |
| TelegramMarkup.FenceEndIsFirst | markdown.go:44-53 | that is the first bare fence at least as long as the opening one |
| TelegramRender.RenderTelegramHTML | markdown.go:25-40 | the loop over lines computes the rendering of the text, and the result is a complete message |
| TelegramRender.InlineSafe | markdown.go:127-271 | in any context of open tags outside code, a rendered line is complete: balanced, no tag in code, no link in a link, no stray angle bracket or ampersand |
| TelegramRender.CodeBlockSafe | markdown.go:70-91 | a fenced block is complete for every info string and body, and only a plain language name gets into a tag |
| TelegramRender.LineSafe | markdown.go:94-111 | headings, bullets and plain lines are complete |
| TelegramRender.RenderIsSafe | markdown.go:25-40 | whatever the text, the whole rendering is in the language |
| TelegramMarkup.PlainRenders | markdown.go:127-162 | a line without markup characters is only escaped |
| TelegramMarkup.EmphasisRenders | markdown.go:236-289 | whatever stands before it, when the scan comes to it: a phrase between two of the same delimiters, without a backtick or the delimiter in it, gets that delimiter's tag and is itself rendered, links and other emphasis included; single underscores only at word boundaries |
| TelegramSpans.EmphasisIsTight | markdown.go:239-297 | nothing else is emphasis: it starts with the longest of the five delimiters and never with three stars, ends with the same, holds no white space at its ends, and underscores stand at word boundaries; it gets the tag of its delimiter and its content is rendered |
| TelegramMarkup.CodeRenders | markdown.go:164-188 | whatever stands before it, when the scan comes to it: text between two runs of any number of backticks becomes code, escaped and otherwise untouched, whatever markup and whatever shorter or longer runs of backticks it holds |
| TelegramMarkup.SnakeCaseSurvives | markdown.go:236-238 | identifiers with single underscores inside are not changed |
| TelegramMarkup.HeadingRenders | markdown.go:94-124 | at any indentation, one to six hashes and a space or tab make the trimmed rest a bold title, which is itself rendered |
| TelegramMarkup.BulletRenders | markdown.go:105-108 | at any indentation, a dash, star or plus and a space or tab make a bullet, whose item is itself rendered |
| TelegramLines.OtherLineRenders | markdown.go:94-124 | a line that is neither a heading nor a bullet is its leading blanks and the rest, rendered |
| TelegramLines.FenceIs | markdown.go:56-66 | blanks, three or more backticks and an info string are a fence, with that many backticks and the trimmed info string |
| TelegramLines.FenceIff | markdown.go:56-66 | and no other line is one |
| TelegramLines.ClosingIff | markdown.go:44-53 | a fence closes a block if and only if it has at least as many backticks and no info string |
| TelegramLines.TextLinesConcat | markdown.go:25-26 | the lines of a text are those before a newline and those behind it; a carriage return before the newline goes with it |
| TelegramLines.RendersLineByLine | markdown.go:25-40 | a text without fences renders line by line, every line of it |
| TelegramLines.LastBlockRenders | markdown.go:25-53 | lines without fences and a block that is closed by the last line, or never: each line rendered, and the code of the block |
| TelegramLines.BlockThenRest | markdown.go:25-53 | lines without fences, a closed block and any text: each line rendered, the code of the block, and the text as it renders alone |
| TelegramLines.FencedBlockRenders | markdown.go:25-75 | so a fenced block between two texts renders to the one, the code and the other, carriage returns before the newlines or not |
| TelegramLines.CodeBlockIs | markdown.go:70-91 | the code is escaped in `<pre>`, under its language if the info string is one word of up to 20 letters, digits and `+-#._` |
| TelegramLines.PlainTextRenders | markdown.go:25-162 | a text without markup is only escaped, and stripping its rendering gives it back |
| TelegramMarkup.CodeIsVerbatim | markdown.go:70-75 | stripping a rendered code block gives back the code, for every info string and body |
| TelegramSplit.CloseTags | markdown.go:455-461 | the loop writes the closing tags innermost first |
| TelegramSplit.CloseTagsLen | markdown.go:463-469 | the length computed without building the string is the length of the closing tags |
| TelegramSplit.ClosersRead | markdown.go:455-461 | reading the closing tags of a stack empties it and shows nothing |
| TelegramSplit.ChunkReads | markdown.go:308-337 | a chunk with its tags reopened and closed is complete and shows exactly the glyphs of its piece under the same tags |
| TelegramSplit.HtmlCut | markdown.go:339-385 | the cut is after at least one token and at a token boundary with the stack that is open there; it is the end if the rest fits, else the last newline, else the last space, outside tags in the second half, else as far as fits |
| TelegramSplit.SplitTelegramHTML | markdown.go:308-337 | for every complete message each chunk is complete and all chunks together show the message's glyphs once, in order, under the same tags, but for blanks at cuts outside all tags; all chunks keep the limit if and only if each token fits with the tags around it; chunks of well-formed UTF-8 are well-formed UTF-8 |
| TelegramSplit.ChunkFits | markdown.go:308-385 | a chunk is within the limit when each token in it fits with its tags reopened and closed |
| TelegramReply.PostOwnerText | runner.go:757-773 | a blank text posts nothing; any other posts a sequence of complete messages that together show its rendering, each within the Telegram limit if the tokens are |
| TelegramPlain.PlainTextFromHTML | markdown.go:473-491 | the token loop computes the text outside tags, then decodes it |
| TelegramPlain.UnescapeIsOnePass | markdown.go:485-490 | the five chained replacements decode every string as one left-to-right pass does, so nothing is decoded twice |
| TelegramPlain.StripUndoesEscape | markdown.go:473-491 | stripping an escaped string gives it back, for every byte string |
| TelegramPlain.StripOfRenderIsSubsequence | markdown.go:127-271 | stripping a rendered line leaves a subsequence of the line: no visible byte is invented or moved |
| TurnQueue.FirstQueued | runner.go:443-468 | the head of the fold is the oldest queued turn of the bot |
| Runners.Runner.Kick | runner.go:384-397 | a channel and a loop are created only where there is no channel, and afterwards the channel holds a token |
| Runners.Runner.Enqueue | runner.go:240-252 | a new queued turn at the end of the table, nothing else in the tables changes, and the bot is kicked |
| Runners.Runner.Stop | runner.go:258-264 | every queued turn of the bot, and no other, is dropped |
| Runners.Runner.Archive | store.go:803-826 | General is refused; any other bot is archived and its queued turns fail |
| Runners.Runner.FoldQueue | runner.go:443-468 | the oldest queued turn stays, the others are closed and point to it, its input is all of theirs in order, and their inbox rows are repointed |
| Runners.Runner.CloseMerged | runner.go:461-464 | a merged turn is closed and exactly its inbox rows are repointed to the head |
| Runners.Runner.StartNext | runner.go:419-488 | refused while the bot waits for the owner or is archived, or has nothing queued; else folding, starting and attaching the quiet rows in place is the one step `StartAny`, and the input is the joined texts |
| Runners.Runner.EndTurn | runner.go:565-587 | the running row is closed with its result, logged once, and runs no more |
| Runners.Runner.ReportTexts | runner.go:705-734 | the loop over inbox rows collects the fallback of each report the turn carries, each text once |
| Runners.Runner.FulfillOwnerRelay | runner.go:705-734 | nothing is posted after a non-blank successful reply, else each fallback is posted once |
| Runners.Runner.EnsureHandoff | runner.go:815-849 | a worker is started exactly when none was handed off in the window, the work is the owner's, and a request is known; its first message is the worker prompt with that request |
| Runners.Runner.PersistChiefTimeout | runner.go:780-812 | the hand-off and then the follow-up: queued exactly when the turn was none itself and, unless a worker was just started, General has not handed off and the work is the owner's |
| Runners.Runner.EnsureWorkerRelay | runner.go:668-698 | a worker's answer becomes a report for General unless it waits, was stopped, or has a report pending |
| Runners.Runner.FinishTurn | runner.go:560-610 | ending a turn in place is the five steps of `Ending`, branch by branch, and then the delivery of what the bot sent |
| Runners.Runner.RecoverAfterRestart | listenv3.go:308-361 | the loop over interrupted rows requeues each under its id, or fails it if the bot is archived, and empties the active map |
| Runners.Runner.DeliverInbox | runner.go:884-911 | the loop delivers each pending waking row once, in id order, with its whole text, and leaves a token for its bot |
| Runners.DeliveredInOrder | runner.go:884-924 | each pending message gets a turn of its own, in the order of the inbox: for its target, naming its sender, and ending in its whole text; the turns there are, and the other messages, stay as they are |
| Runners.TextAppend | runner.go:443-468 | joining what was joined is joining everything: merged inputs keep every text in order |
| TurnQueue.LabelKeeps | runner.go:913-924 | a delivered message begins with who sent it and ends in its whole text |
| TurnQueueMessages.DeliverAdds | runner.go:895-909 | delivering a message adds one queued turn for its target, with the whole text behind the line that names the sender, and the message points to it; nothing else changes |
| TurnQueueMessages.MessageIsCarried | runner.go:884-924 | in every run a delivered message, a report or not, is ever after with exactly one turn of its target, through merges and restarts, and one text of that turn ends in the whole message |
| TurnQueueSteps.StopDrops | runner.go:258-264 | after /stop no turn of the bot is queued, those that were are failed, and nothing else has changed |
| TurnQueueSteps.ArchiveDrops | store.go:803-826 | General is never archived; of any other bot no turn is queued afterwards, those that were are failed, and it waits for nothing |
| TurnQueueSteps.StartRuns | runner.go:419-488 | a start runs the oldest queued turn with exactly what was queued in all of them, closes the others and points them to it, moves their messages along and reads the quiet ones; nothing else changes, and nothing does while the bot is inside `execute` or has nothing queued |
| TurnQueueSteps.FinishCloses | runner.go:565-587 | the running row is done if and only if the turn succeeded and else has failed with its error; the bot runs nothing and no other row changes |
| TurnQueueSteps.ReplyIsPosted | runner.go:566-574 | the reply is posted if and only if the turn is General's and succeeded |
| TurnQueueSteps.OwnerIsTold | runner.go:705-734 | after a reply that is not blank nothing more is posted; else the fallback of every report the turn carries, and nothing else, each text once |
| TurnQueueSteps.FallbackNames | runner.go:736-753 | a fallback is the cut report behind the worker's name, unless there is no name or the report starts with it |
| TurnQueueSteps.CutIs | runner.go:736-753 | a report is cut to its first 1200 bytes if it is longer, and else told whole |
| TurnQueueSteps.AnswerIs | runner.go:668-689 | a worker's answer is reported whole, or its first 4000 bytes |
| TurnQueueSteps.PendingIff | runner.go:691-700 | a report of the worker is pending if and only if the inbox holds one that is not delivered |
| TurnQueueSteps.EndLeaves | runner.go:596-610 | at the end of `execute` the bot waits for the owner if and only if it asked something, and all others do as before |
| TurnQueueSteps.RestartRequeues | listenv3.go:308-361 | after a restart every interrupted turn of a live session is queued again with all its input, one of an archived session has failed, and no other row and no message has changed |
| TurnQueueSteps.SendAdds | botmsg.go:31-51 | a message is refused exactly if it is blank or to oneself; else it is in the inbox, trimmed and undelivered, and nothing else changes |
| TurnQueueSteps.ReportAdds | botmsg.go:20-30 | a report goes to General, wakes it and is to be relayed; an ordinary message is not |
| TurnQueueSafety.StartKeeps | runner.go:419-470 | folding and starting keep the invariant: one running turn, each input in one row, order by age |
| TurnQueueSafety.FinishKeeps | runner.go:565-587 | every result with which a row can be closed keeps it |
| TurnQueueSafety.GoOnKeeps | runner.go:580-610 | and so does every later step of the end of a turn |
| TurnQueueSafety.RestartKeeps | listenv3.go:308-361 | a crash and recovery at any point keep it |
| TurnQueueSafety.RowAdded | runner.go:240-252 | a step adds a row exactly for input from outside, for a delivered message, and for a follow-up, one queued row each, holding that input as it came in, or the message to its whole length |
| TurnQueueSafety.ExactlyOnePlace | runner.go:240-263 | in every run the input of every row that any step adds, an input from outside as it came in, a message to its whole length, is carried unchanged by exactly one turn of its bot ever after, and has been finished once if that turn ended and never otherwise |
| TurnQueueLoops.FoldIsStart | runner.go:419-441 | when a loop folds, its bot is not inside `execute`, although nothing in `runNext` looks |
| TurnQueueLoops.PlaysAreRuns | runner.go:384-441 | whatever the goroutines, kicks and crashes do, the queue takes the steps of a run, so all that holds of runs holds of it |
| TurnQueueLoops.OneLoopOneTurn | runner.go:384-417 | under every interleaving a bot has at most one loop and at most one running turn, inside that loop |
| TurnQueueLoops.NoWakeUpLost | runner.go:384-441 | under every interleaving a bot with a queued turn has a kick under way, a token in its channel or its loop inside `runNext`, or it was refused when its loop last looked |
| TurnQueueLoops.StrandedWasRefused | runner.go:419-426 | so a bot that is free, has a queued turn and will not be looked at was waiting or archived when its loop last looked |
| TurnQueueLoops.UnheededStays | runner.go:384-417 | and it stays so until new input for it or a restart |
| TurnQueueLoops.FreeingStrands | store.go:830-838 | bringing a bot back from the archive, or from waiting while it is not archived, strands it if and only if a turn of it is queued and nobody is going to look |
| TurnQueueLoops.BecomesStranded | runner.go:384-441 | in every play, a bot that is not stranded becomes so by a move if and only if the move is such a return and the same condition holds |
| TurnQueueLoops.UnarchiveStrands | store.go:830-838 | a play in which bringing an archived session back leaves its queued turn like that |
| TurnQueueSafety.FinishedInOrder | runner.go:443-470 | in every run the inputs finished for a bot were finished in the order they came, none twice, across merges and restarts |
| TurnQueueReports.FallbackTells | runner.go:736-753 | the fallback for a non-blank report is not blank and ends in the report cut to the fallback length |
| TurnQueueReports.StepReports | runner.go:668-734 | every step keeps each report with exactly one place, through merges that repoint it, and says nothing about a turn before it is due |
| TurnQueueReports.EveryReportIsPlaced | runner.go:668-734 | in every run every report there is, a worker's relayed answer included, stays as it is and is undelivered, or with a waiting, running or just ending turn of General that holds its whole text; once that turn is over the owner has heard it by a reply or a fallback if and only if the turn was neither dropped by /stop nor cut short by a crash |
| TurnQueueReports.NoReportLost | botmsg.go:23-51 | and so is, from the moment it is sent, a report that a worker sends itself: it is undelivered, or with a waiting, running or just ending turn of General that holds its whole text; once that turn is over the owner has heard it by a reply or a fallback if and only if the turn was neither dropped by /stop nor cut short by a crash |
| TurnQueueReports.CutByCrash | runner.go:566-607 | a turn is cut short exactly when the process dies while its end is under way: for General after its row was closed and before the owner has been told, for a worker after its row was closed and before its report is queued |
| TurnQueueReports.CrashLosesReport | listenv3.go:308-361 | in every run, a crash just after General failed a turn loses the reports that turn carries |
| TurnQueueAnswers.AnswerReported | runner.go:668-698 | in every run, however a worker's turn ended, just one holds ever after: its end is under way, a crash cut it short, or its answer is accounted for: a report with that answer is in the inbox and placed as above, unless none was due or a report of the same worker, perhaps with another text, was pending, which is placed as above too |
| TurnQueueAnswers.CrashLosesAnswer | listenv3.go:308-361 | in every run, a crash anywhere between the update of a worker's row and its relay leaves the turn ended, the inbox and the owner's messages as they were, and no answer accounted for |
| TurnQueueAnswers.CrashBeforeReport | listenv3.go:308-361 | the shortest such run, whatever the answer: afterwards nothing is queued, running or heard |
| TurnQueueTimeouts.StepLoad | runner.go:780-812 | a turn that times out makes the load strictly lighter and no other step without outside input makes it heavier |
| TurnQueueTimeouts.TimeoutChainEnds | runner.go:575-580 | in every run without new input for General, the number of timed-out turns is at most the load it began with |
| TurnQueueTimeouts.FollowUpIsFollowUp | chief.go:58-75 | both injected inputs are recognised as follow-ups, whatever the worker's name |
| TurnQueueEpisodes.OneWorkerPerEpisode | runner.go:815-849 | in every run, of a timed-out turn and a follow-up that is the next turn of General to end, at most one got a worker |
| TurnQueueEpisodes.EpisodeRuns | runner.go:780-812 | in every run the injected follow-up is carried by the next turn of General that ends, unless /stop dropped it; that turn is recognised as a follow-up, and of the two turns at most one got a worker |
| TurnQueueEnds.TakenOrLost | runner.go:780-812 | in every run, however a turn of General ends: for its hand-off as for its follow-up just one holds: the end still comes to it, the process died before, or the end came to it, at one point of the run |
| TurnQueueWindow.FollowUpIff | chief.go:73-75 | a follow-up is an input in which the phrase occurs, wherever it stands |
| TurnQueueWindow.FollowUpNames | chief.go:64-71 | the follow-up about a worker names it |
| TurnQueueWindow.RequestIff | chief.go:111-130 | a request is an input that is not blank and no follow-up |
| TurnQueueWindow.NewestIs | chief.go:117-129 | the row that is read for the request is the newest of the owner's last thirty rows that holds one, and none is if none does |
| TurnQueueWindow.SentIff | chief.go:132-163 | General has handed the work off if and only if it sent a waking message since the row was created or, for a follow-up, since the last turn that timed out before it began |
| TurnQueueWindow.HandOffIff | runner.go:566-578 | as the end of any turn of General comes to the hand-off: a worker is started if and only if the turn timed out, or succeeded and held a follow-up, and a worker is due; nothing but that changes |
| TurnQueueWindow.FollowUpAtEnd | runner.go:786-812 | as it comes to the follow-up: one is queued if and only if the turn timed out and a follow-up is due |
| TurnQueueRequests.TimeoutEnds | runner.go:780-849 | in every state, for an end with nothing in between: exactly when the timeout of General's turn starts a worker, the very message the worker finds, exactly when a follow-up is queued and with which text, and exactly when neither happens |
| TurnQueueRequests.OwnerTimesOut | chief.go:101-163 | in every run, for an owner's input in whatever turn carries it, and whatever comes between the steps of the end, crashes and inputs included: a worker if and only if the end comes to the hand-off and there General has sent nothing in the window, the turn began as the owner's or holds a follow-up, a request is found and the worker can be created, and the worker finds that request; when the end comes to the follow-up, one is queued if and only if the turn holds none itself and a worker was started or General has still sent nothing and the turn began as the owner's |
| TurnQueueRequests.WorkerIsTold | chief.go:111-130 | in every run, as a timed-out turn comes to its hand-off: the message the worker gets, and that an owner's request is in it if and only if the turn began with a request whose row already held it, or began with none and it is then in the newest row that holds one |
| TurnQueueRequests.LateRequestIsTold | chief.go:121-130 | in every run, when the turn did not begin with a request, one that comes in before the hand-off, for another turn, is the one that is read |
| TurnQueueRequests.CrashDropsRequest | listenv3.go:308-361 | in every run, a crash before the hand-off of a turn leaves messages, turns and workers as they are, and whatever comes later there is neither a worker nor a follow-up of that turn |
| TurnQueueRequests.CrashLosesRequest | runner.go:781-808 | the shortest such run: the owner's request times out, a worker and a follow-up are due, and after the crash nothing is queued, running or started |
| TurnQueueRequests.MergedRequestGetsNothing | chief.go:101-106 | a run in which an owner's request merged into the turn of a worker's report gets neither worker nor follow-up, General having sent nothing |
| TurnQueueRequests.BehindFollowUp | runner.go:790-804 | in every run, when a timed-out request got a worker, the turn that carries its follow-up, and what was merged into that, gets neither a worker nor another follow-up, however it ends and whatever comes in between |
| TurnQueueRequests.EarlierHandoffHidesRequest | chief.go:88-163 | a run in which a request times out, General sent nothing since it started, and neither a worker nor a follow-up comes of it |
| Background.WithStatus | background.go:433-437 | the listing holds exactly the jobs with the status, in id order |
| Background.DoneIffExitZero | background.go:640-661 | a finished job is done exactly when it wrote exit status 0 and was not cancelled |
| Background.StepKeeps | background.go:433-466 | every step of every process keeps the cap, single supervision, the wake account and the scheduler's list |
| Background.AtMostEightRun | background.go:433-466 | under every interleaving at most eight jobs of a bot are running, counted as rows |
| Background.EndedIsAbsorbing | background.go:663-684 | under every interleaving a job that is done or failed keeps that status |
| Background.OneWakePerJob | background.go:663-701 | under every interleaving a job enqueues at most one wake, and none before it ended |
| BackgroundWakes.WakeRaises | background.go:686-701 | a wake that is due enqueues one turn for this job's bot and for no other job, unless the bot is archived; afterwards it is due no more |
| BackgroundWakes.WakeComes | background.go:663-701 | under every interleaving a job that its goroutine ended enqueues exactly one wake, and stays at one, unless the process dies first or the bot is archived when it is to be enqueued; until then the wake is owed |
| BackgroundWakes.OneWakeIff | background.go:663-701 | so wakes and owed wakes are together exactly one ever after if and only if no crash came before the wake and the bot was not archived then |
| BackgroundWakes.WakesIff | background.go:663-701 | under every interleaving a job enqueued a wake if and only if its goroutine ended it and then, with no crash in between, came to the wake when the bot was not archived |
| BackgroundWakes.NoJobForgotten | background.go:468-541 | under every interleaving, restarts included, a running job is being started or watched or is yet to be reattached, unless its watcher was told to stop; and nobody watches a job that has not been started |
| BackgroundWakes.StatusMoves | background.go:306-684 | every way in which a job's status changes: it starts only by the claim that found room; it is done exactly if its process wrote exit status 0 and it was not cancelled; it fails exactly by a cancel while queued, by the archive or absence of its bot, by a start that failed, or by any other end |
| BackgroundWakes.RowAdded | background.go:234-277 | only queueing a job adds a row, and the job in it is queued, not cancelled and has woken nobody |
| BackgroundWakes.CancelFails | background.go:306-335 | cancelling fails that job if it is queued and touches no other |
| BackgroundWakes.FlagAsks | background.go:306-335 | asking to cancel sets that job's flag and nothing else |
| BackgroundWakes.ArchiveFails | store.go:803-826 | after an archive no job of the bot is queued or running, those that were have failed and are flagged, and every other row is as it was |
| Background.OneSupervisor | background.go:88-103 | under every interleaving a job has at most one watcher in a process; that a step keeps this from any state with the invariant, also one where a launch races a reattach, is `StepKeeps` |
| Background.UnguardedUpdateIsSafeIff | background.go:433-447 | the update without a status condition is harmless exactly when its job is queued or already failed |
| Background.UnguardedUpdateIsSafe | background.go:433-447 | in every run it is harmless |
| Supervisors.Supervisor.AdoptHandle | background.go:88-103 | the first caller gets the job's handle and every later one is told no |
| Supervisors.Supervisor.QueueJob | background.go:234-277 | refused without a command or when a variable has no proper name or a secret is not in the vault; else one queued job more, under the next id |
| Supervisors.Supervisor.CancelJob | background.go:306-335 | another bot's job is unknown; a queued job fails at once, a running one is flagged, an ended one is left as it is |
| Supervisors.Supervisor.Update | background.go:663-672 | a conditional update changes the row only from the expected status and says whether it did |
| Supervisors.Supervisor.CountRunning | background.go:449-455 | the number of running jobs of the bot |
| Supervisors.Supervisor.HandleJob | background.go:438-465 | one round of the start loop is the scheduler's steps for that job |
| Supervisors.Supervisor.StartQueuedBackground | background.go:433-466 | the loop is the scan of the whole list |
| Supervisors.Supervisor.FinishJob | background.go:663-684 | only the update that finds the job running goes on to wake the bot |
| Supervisors.Supervisor.ReattachBackgroundJobs | background.go:521-541 | after a restart exactly the running jobs have a handle, and each has one watcher |
| Supervisors.TickDealsWithAll | background.go:433-466 | after an undisturbed tick no queued job was passed over: those of archived bots have failed, the others run, or are queued because eight jobs of their bot run; no other row has changed |
| Supervisors.ScanIsRun | background.go:433-466 | the undisturbed loop is one of the runs the theorems are about |
| Retention.TurnTable.ApplyRetention | maintenance.go:146-174 | the loop over bots leaves the table without the turns that are neither young nor among their bot's newest 200 |
| Retention.FloorDecides | maintenance.go:155-167 | the id found by skipping 200 turns separates exactly the turns with at least 200 newer ones of their bot |
| Retention.NewerIs | maintenance.go:155-167 | the number of newer turns is the number of rows of the bot with a larger id |
| Retention.RetainMore | maintenance.go:154-172 | bots can be handled one after the other: deleting the turns of one does not change which turns of another stay |
| Retention.RetentionKeeps | maintenance.go:146-174 | a turn is left if and only if it is young or has fewer than 200 newer turns of its bot; order and ids are kept |
| Retention.TurnTable.TrimTurnBodies | maintenance.go:181-218 | the cursor loop ends, trims every old row exactly once, changes nothing else, and counts the rows it changed |
| Retention.PageFacts | maintenance.go:191-194 | a page holds the first matching rows after the cursor in id order, and all of them if it is short |
| Retention.TrimBodyIs | maintenance.go:223-228 | a body is cut, to its first 500 bytes and the note, exactly if it is longer and does not end in the note already; a cut body is not cut again |
| Retention.TrimTouches | maintenance.go:181-218 | trimming touches nothing but the two bodies of the rows before the cutoff |
| Retention.MaintainedOnce | maintenance.go:146-228 | a second run at the same time deletes nothing and trims nothing |
| Compaction.MemoryStore.ApplyCompaction | maintenance.go:463-499 | the transaction archives the replaced rows under a fresh id and puts the new list in place of the scope, or changes nothing |
| Compaction.MemoryStore.RestoreCompaction | maintenance.go:506-540 | the transaction puts the archived rows back in place of their scopes and takes them out of the archive, or changes nothing |
| Compaction.ApplyIff | store.go:122-124 | the unique index lets a compaction through exactly when its list has no key twice |
| Compaction.ApplyStores | maintenance.go:463-499 | afterwards the scope holds each listed key with its text, no creator and the time of the compaction, and no other key; the replaced rows are archived in order under an id of their own |
| Compaction.RestoreGives | maintenance.go:506-540 | after a restore the scope is as it was archived, every other scope as it is, and the compaction is gone from the archive |
| Compaction.RestoreUndoesApply | maintenance.go:463-540 | compaction then restore gives back the same memories and the same archive; an empty scope leaves nothing to restore |
| Compaction.ApplyLeavesOthers | maintenance.go:484-487 | a compaction does not touch other scopes |
| Compaction.RestoreIsNeverPartial | maintenance.go:506-540 | in every run a compaction id in the archive belongs to one compaction, with all its rows, so a restore succeeds and is complete |
| Compaction.CleanupAllOrNothing | maintenance.go:577-578 | in every run the 90-day cleanup removes the rows of a compaction together or leaves them all |
| Compaction.CleanupKeeps | maintenance.go:577-578 | the cleanup keeps exactly the rows archived since the cutoff, each as often as it is there, in order |
| MemoryList.ParseMemoryList | maintenance.go:411-442 | the loop with its map of positions computes the strict reading of the list, the first faulty line's error included |
| MemoryList.PutAllMerges | maintenance.go:432-437 | one entry per key, in order of first appearance, with the text given last |
| MemoryList.ParseIsSound | maintenance.go:411-442 | an accepted answer has an entry, admissible distinct keys and no blank text, so applying it never breaks the unique index |
| MemoryAnswers.EntryIff | maintenance.go:411-442 | a line is an entry if and only if, trimmed, it does not read as markdown and is a key of at most 80 bytes without the four marks, the first colon, and a text, neither blank; these are what is read, trimmed |
| MemoryAnswers.MarkdownIff | maintenance.go:447-459 | a line reads as markdown exactly if it begins with one of seven marks, or with a number of up to three bytes, a dot and a space |
| MemoryAnswers.RefusedIff | maintenance.go:411-431 | blank lines are passed over, markdown is refused as such, and so is every other line that is no entry |
| MemoryAnswers.FirstFault | maintenance.go:411-442 | an answer with a faulty line is refused for the first one; without one it has entries unless all its lines are blank |
| MemoryAnswers.AnswerIsStored | maintenance.go:411-499 | applying an accepted answer leaves in the scope, under each key, the text of the last line with that key, and nothing else |
| MemoryList.DotSpace | maintenance.go:452-456 | the first place where a dot is followed by a space |
| MemoryList.CollapseKeepsWords | prompt.go:303-305 | collapsing keeps the words and their order, and collapsing twice is collapsing once |
| MemoryAnswers.CollapsedBlanks | prompt.go:303-305 | what is left has no white space but single blanks between its words |
| MemoryAnswers.PrintIs | maintenance.go:397-399 | each memory is printed on a line of its own: key, colon, blank, collapsed text |
| MemoryList.PrintThenParse | maintenance.go:391-442 | the printed list parses to itself with collapsed texts if and only if it is not empty, no key repeats, every key is admissible and no text is blank |
| MemoryList.AcceptedReadsBack | maintenance.go:391-442 | an accepted answer can be printed and read again |
| Upload.ChunksPartition | hub_file.go:58-67 | every byte of a file is in exactly one chunk, and every chunk is non-empty, at most 96 KiB and inside the file |
| Upload.BeginIs | hub_file.go:183-239 | a file of 1 byte to 50 MiB for a known bot is opened unless its id is in use: zeros, no mark, in just as many chunks as it takes; anything else is refused for its reason and changes nothing |
| Upload.PutIs | hub_file.go:241-290 | a chunk is stored if and only if its upload is open, its index in range and its length right: at its offset, and no other byte and no other upload changes; its mark is set |
| Upload.ClosingIs | hub_file.go:292-323 | a commit closes its upload and no other, whatever comes of it, and the sweep exactly those untouched since the cutoff |
| Upload.UploadTable.PutBegin | hub_file.go:183-239 | refused for an unknown bot or a size outside 1 to 50 MiB, else a file of zeros and no chunk yet |
| Upload.UploadTable.PutChunk | hub_file.go:241-290 | refused with nothing changed unless upload, index and length are right; else the bytes are at their offset and the index is marked |
| Upload.UploadTable.PutCommit | hub_file.go:292-323 | the upload is closed; its bytes are handed on only if all chunks are marked |
| Upload.UploadTable.GcUploads | hub_file.go:128-138 | exactly the uploads untouched since the cutoff go, with their files |
| Upload.HandleKeeps | hub_file.go:183-323 | every request keeps each open upload's file at its announced size and its marks in range |
| Upload.FullCount | hub_file.go:307-311 | counting the marks is enough: as many as there are chunks means every chunk |
| Upload.FileHoldsLast | hub_file.go:241-290 | in every run a chunk is marked exactly if it was stored, and the file holds what was stored last |
| Upload.CommitGivesLastStored | hub_file.go:292-339 | in every run a commit for a known bot succeeds if and only if every chunk was stored, and hands on a file made of the chunks stored last |
| Upload.ReadAll | hub_file.go:341-386 | reading all chunks gives a prefix of the file, and the file itself exactly when it is not longer than its recorded size has chunks for |
| Upload.UploadReassembles | hub_file.go:241-386 | storing the chunks of a file in any order, any number of times, hands on that very file |
| LineDiff.ComputeLineDiff | scheduler.go:436-492 | the counting loops with their early exits compute the specified text |
| LineDiff.LinesAre | scheduler.go:436-438 | what is compared are all the lines of an output but the empty ones at its end |
| LineDiff.NonBlankLines | scheduler.go:436-438 | the non-blank lines that are compared are the non-blank lines of the output |
| LineDiff.NonBlankIs | scheduler.go:454-485 | a line counts, as often as it is there, unless every rune in it is white space |
| WhiteSpace.BlankIff | scheduler.go:459-460 | a text is blank if and only if it is made of white-space code points |
| WhiteSpace.TrimSpaceIs | maintenance.go:411-442 | a text is white space, the trimmed text, and white space; the trimmed text neither begins nor ends with white space |
| LineDiff.SidesArePatch | scheduler.go:436-492 | old non-blank lines without the "-" lines and with the "+" lines are the new non-blank lines, each as often; no line is on both sides |
| LineDiff.SidesInOrder | scheduler.go:454-485 | each side keeps the order of the non-blank lines of its source |
| LineDiff.ReorderedIff | scheduler.go:487-490 | the text says "reordered" exactly when both outputs have the same non-blank lines, each as often |
| LineDiff.DiffIs | scheduler.go:445-453 | all entries are listed if and only if together they fit the limit; else the text is cut before the first that does not fit; it is never longer than the limit and the marker |
| LineDiff.DiffTells | scheduler.go:436-492 | all of it on the two outputs: "-" lines to take from the non-blank lines of the first and "+" lines to add that give those of the second, each side in order and none on both; all of them or, over the limit, up to the first that does not fit and the marker; or the text that says there are none |
| Redact.RedactSecrets | secrets.go:250-268 | each long enough value is replaced once, longest first; no star-safe one is left in the result, and a text that holds none is returned as it is |
| Redact.SortLongestFirst | secrets.go:263 | the same values, longest first |
| Redact.RedactionIsComplete | secrets.go:248-268 | a star-safe value does not occur in the redacted text, whatever the text, the other values, the overlaps and the order |
| Redact.CompleteIffStarSafe | secrets.go:248-268 | redacting a value removes it from every text if and only if the value neither starts nor ends with a star nor contains the token |
| Redact.CleanUnchanged | secrets.go:250-268 | a text in which no value occurs is returned unchanged |
| Redact.NoRemnant | secrets.go:248-268 | longest first, a star-safe value becomes one token as a whole where it first occurs, unless a longer or equally long one touches it there, and the text on either side is redacted by itself: shorter values leave no remnant of it |
| Redact.ShortestFirstLeavesRemnant | secrets.go:263 | the opposite order would leave one |
| EnvFile.NamesAre | envfile.go:76-88 | the names of the configuration, trimmed, in order and as often as they are there, but for empty ones and those that begin with CLAUDE or ANTHROPIC |
| EnvFile.RenderEnvFile | envfile.go:92-121 | the loop writes one line per found name after the header and sorts every name into found, skipped or missing |
| EnvFile.Fates | envfile.go:100-112 | a name is skipped exactly when its value has a line break, missing exactly when it has none |
| EnvFile.UnescapeEnvValue | envfile.go:219-228 | the loop computes the unescaping |
| EnvFile.UnescapeEscape | envfile.go:115-116 | unescaping undoes the two-pass escape for every value |
| EnvFile.LineReadsBack | envfile.go:200-217 | a written line reads back as its name and value for every well-formed name and every value |
| EnvFile.ParseIff | envfile.go:200-217 | a line assigns if and only if, trimmed, it is no comment and is a name that is not blank, the first equals sign, and a value; quotes around the value are taken off and what is between them unescaped, and any other value is taken trimmed |
| EnvFile.ScanLast | envfile.go:178-196 | a last line without a newline is read like any other |
| EnvFile.ParsedIsWellFormed | envfile.go:200-217 | no other kind of name is ever read |
| EnvFile.Process.LoadEnvFile | envfile.go:166-198 | the scan loop loads the assignments of the file in order |
| EnvFile.FileReadsBack | envfile.go:92-198 | the file gives back exactly the written names and values if and only if every name is well-formed and every line fits the scanner |
| EnvFile.LoadSets | envfile.go:184-196 | loading sets only wanted names that were not set, and never changes one that was |
| EnvFile.SyncThenLoad | envfile.go:92-198 | written in one environment and loaded in another, each found name has the shell's value unless it was set already; nothing else changes |
| McpBlock.StripTOMLTable | engine_mcp.go:69-90 | the line loop computes the lines that are kept |
| McpBlock.StripKeepsOutside | engine_mcp.go:69-90 | kept are exactly the lines whose nearest table header is not the table's or a child's, in order |
| McpBlock.OpensIff | engine_mcp.go:69-90 | a header opens the table or a child exactly if it is the name in brackets, or begins with a bracket, the name and a dot |
| McpBlock.UpsertCCCMCPBlock | engine_mcp.go:46-67 | the new contents are the trimmed rest, a blank line and the block with the quoted command, by default the program's own name; a missing file reads as empty |
| McpBlock.BlockIs | engine_mcp.go:46-67 | the block is its four lines, the command quoted |
| McpBlock.UpsertTwice | engine_mcp.go:46-67 | writing the block twice is writing it once, byte for byte |
| McpBlock.OneBlock | engine_mcp.go:46-90 | afterwards the table is opened exactly once; the file is, byte for byte, the lines outside the table joined and trimmed, a blank line and the block; and those are again the lines outside the table |
| McpBlock.TrimShape | engine_mcp.go:57 | trimming a text keeps its non-blank lines up to the white space around them |

## Left out

- Telegram's HTTP interface, the web socket hub and its relay, encryption, JSON, login flows, process start and signals: input and output.
- SQL itself; tables are sequences and maps with atomic updates, and `length()` counts bytes where SQLite counts characters.
- Failing database writes and file errors, also inside `startBackendSession`, where they are one input of the step.
- Crashes inside the steps named above.
- Runners.Runner.Stop: the signal to the running engine, and whether there was one to signal, are not modelled; the turn then ends by itself with the result "stopped".
- Runners.Runner.Archive: the watches, schedules and jobs that an archive disables are not modelled; each is one column.
- Runners.Runner.EndTurn: conversation ids, usage, the tick on the owner's messages and the error text shown for a failed turn are not modelled.
- Runners.Runner.FinishTurn: the rotation of the conversation after a rename and the session card are not modelled.
- Supervisors.Supervisor.QueueJob: the job's name, its command and the names of its secrets are not kept in the row.
- McpBlock.UpsertCCCMCPBlock: how a command is quoted is a parameter; `McpBlock.UpsertTwice` and `McpBlock.OneBlock` ask that the result holds no newline.
- Waiting for a free account, the retry loop inside `execute` and typing debounce: they delay a start or an end but take no other step on the rows.
- Whether a report already starts with its sender's name, compared without regard to case (runner.go:746): an input of the step.
- Quoting of a worker's name: an input.
- The rule that a compaction may drop at most 60 percent of the entries: a comparison of two numbers.
- Memories written while a compaction turn is running: the program deletes the scope as it is then, and `Compaction.RestoreUndoesApply` therefore asks that the rows passed in are the scope's.
- Which of two equally long values is redacted first: the library's sort leaves it open, and so does the model.
- Wall-clock time, cron expressions, prompt texts, commands, status cards, the session panel, model and account choice: no property that spans operations.
- TelegramSplit.SplitTelegramHTML: a single token that is longer than the limit with its tags, such as a very long link, is not cut; the length bound is stated as the exact condition.
