# pb-ai-demo generator page: phase machine and reveal scheduler

A Dafny model of the logic of `PbAIGenerator` (`src/App.jsx`). This is the
landing-page generator in which a visitor describes their company in a chat,
a simulated AI fills in six page blocks, and the page then "types" each
block's text character by character before marking itself ready.

The model has four modules:

- `Text`: `String.prototype.trim` and the blank-input test that guards
  `sendMessage`.
- `Content`: the six block templates and `fakeGenerate`, the pure map that
  fills each template's content from its title and the prompt.
- `Timeline`: the reveal run's timing. Block `i` starts `400*i` ms after the
  run. Its typing loop step `k` runs `12*k` ms later. The run's estimated total
  time is `12*totalChars + 400*n + 200`.
- `Page`: the component's state as the class `Generator`. Its fields are the
  message list, the input, the phase, the blocks, the displayed texts and the
  `timersRef` registry. Next to them sit the host's timer table and clock and
  the run bookkeeping of the reveal effect.

Timers are explicit, discrete events:

- `setTimeout` adds an entry with a due time to a table of pending timers, and
  the registry records its handle.
- `clearTimeout` removes the entry.
- `Fire(h)` is the host's clock reaching the earliest pending timer and
  running its callback.
- Every effect run past its guard gets a number. A run's `cancelled` flag is
  that number's membership in `cancelled`.
- `Rerun` is React re-running the effect after `phase` or `blocks` changed. It
  runs the previous run's cleanup, then the effect body.
- A timer's callback and the `async` continuation it resumes run as one step.
  A wait's timer only calls `res`, and the continuation after `await` is a
  promise job of that same task. React runs effect cleanups in a later task,
  so nothing can come in between, and the single step loses nothing.
- Cleanup clears every handle the run recorded, so no timer of a cleaned-up
  run ever fires. The `cancelled` flag is therefore never raised when one of
  the guards reads it, in the source as in the model (`NoStaleTimers`).

The class invariant `Valid` relates the visible state to the pending timers:

- Every slot shows a prefix of its block's text.
- A ready page shows every block in full.
- Every pending timer is recorded in the registry, not overdue, and belongs to
  the one active run, whose flag is down.
- Each block of the active run has either finished typing or has exactly the
  one timer its progress calls for. A start timer means the slot is still
  empty; the wait before step `k` means the slot shows the first `k - 1`
  characters.
- The finish timer is due at the estimated total time.

Every operation preserves `Valid`. From it and the timeline lemma, the model
proves that when the finish timer fires, every block has finished typing.

## Model

| member | source | states |
|---|---|---|
| Text.TrimStart | src/App.jsx:132 | the result is the suffix of the input left after a blank prefix, and it does not start with white space |
| Text.TrimEnd | src/App.jsx:132 | the result is the prefix of the input left before a blank suffix, and it does not end with white space |
| Text.Trim | src/App.jsx:132 | `trim()` yields a prefix of the input with its leading white space dropped, followed there only by white space, and it neither starts nor ends with white space |
| Text.TrimEmptyIffBlank | src/App.jsx:132 | `userInput.trim()` is empty exactly when the input is made only of white space, in both directions |
| Content.Fill | src/App.jsx:127 | one block per template, in template order, keeping `id` and `title`, with content equal to the fixed lead, the title and the prompt |
| Content.FakeGenerate | src/App.jsx:124-128 | exactly one block per template of the page, in order, with the template's `id` and `title` and the content built from the title and the prompt |
| Content.PromptOf | src/App.jsx:127 | a prompt read back from a block is exactly what follows the block's lead text |
| Content.PromptRoundTrip | src/App.jsx:124-128 | every block `fakeGenerate` returns carries its prompt, and reading it back yields that prompt |
| Content.GeneratedPageShape | src/App.jsx:124-128 | `fakeGenerate` yields six blocks with distinct ids, each with a content longer than the prompt, so each gets typed |
| Timeline.ContentWithinTotal | src/App.jsx:195 | `Timeline.TotalChars`, the `totalChars` reduce, bounds every single block's length |
| Timeline.TotalCharsZeroIffAllEmpty | src/App.jsx:195 | `Timeline.TotalChars` is zero exactly when every block's content is empty |
| Timeline.FinishAfterTyping | src/App.jsx:189-196 | with exact delays, `Timeline.EstTotalTime`, the `estTotalTime` estimate, is strictly later than every block's last write and the end of its typing loop |
| Page.Cleared | src/App.jsx:151 | a timer stays pending exactly when it was pending and its handle is not recorded, and it stays unchanged |
| Page.ClearedTwice | src/App.jsx:202-206 | clearing the same handles a second time changes nothing |
| Page.ClearedRecorded | src/App.jsx:151-152 | clearing the registry empties the timer table exactly when every pending timer is recorded |
| Page.FinishIsLast | src/App.jsx:163-199 | a typing timer of any block of a run falls due strictly before that run's finish timer |
| Page.Generator.constructor | src/App.jsx:7-19 | the page starts in chat with the greeting, an empty input, no blocks and no timers |
| Page.Generator.NoStaleTimers | src/App.jsx:164-167 | no pending timer belongs to a run whose `cancelled` flag is raised, so no callback of a cleaned-up run writes or sets ready |
| Page.Generator.EditInput | src/App.jsx:231 | the input becomes the typed text and nothing else changes |
| Page.Generator.Send | src/App.jsx:131-137 | a blank input changes nothing; otherwise exactly one user message with the untrimmed input is appended, the input cleared, the phase becomes generating, the prompt is requested and any run is torn down |
| Page.Generator.Submit | src/App.jsx:133-138 | the accepted submission's message, cleared input, generating phase, requested prompt and torn-down run |
| Page.Generator.Resolve | src/App.jsx:138-145 | the oldest requested prompt's `fakeGenerate` page is installed with an empty slot per block, the phase is revealing, and the opening timers of a new run are pending |
| Page.Generator.Install | src/App.jsx:141-145 | installs the blocks and `Array(n).fill("")`, sets revealing, cancels the previous run, and starts a run whose pending timers are exactly one start timer per non-empty block plus the finish timer |
| Page.Generator.Rerun | src/App.jsx:149-207 | the previous run is cancelled and its timers cleared; a new run starts exactly when the phase is revealing and there are blocks, otherwise nothing is pending or recorded |
| Page.Generator.Cleanup | src/App.jsx:202-206 | the run's flag is raised, no timer is pending or recorded, and a second cleanup changes nothing |
| Page.Generator.ClearRegistry | src/App.jsx:151-152 | every recorded handle is cleared from the timer table and the registry is emptied |
| Page.Generator.Schedule | src/App.jsx:178-185 | `setTimeout` adds one timer due `delay` from now under a fresh handle, and its handle is recorded |
| Page.Generator.StartTypingForBlock | src/App.jsx:158-186 | a block with empty content schedules nothing; any other block gets one start timer at its stagger offset |
| Page.Generator.StaggerBlocks | src/App.jsx:189-192 | after the loop every non-empty block has exactly one start timer, due at `400*i`, and nothing else is pending |
| Page.Generator.StartRun | src/App.jsx:154-200 | a new run becomes active with its start timers and its finish timer pending, and the invariant holds |
| Page.Generator.SetFinishTimer | src/App.jsx:195-200 | the finish timer is due at `12*totalChars + 400*n + 200` after the run's start, and the run's pending timers are exactly its opening set |
| Page.Generator.Fire | src/App.jsx:163-199 | the earliest timer runs: a typing step sets its slot to the prefix at its loop index and replaces its timer by the next 12 ms wait, the last wait leaves the slots alone and only removes its timer, slots only grow, the phase changes only when the finish timer fires, and then every block is shown in full and the run is torn down |
| Page.Generator.TakeTimer | src/App.jsx:163-179 | the fired timer leaves the table and the clock reaches its due time; the run is paused at that block's loop index |
| Page.Generator.TypingTimerFires | src/App.jsx:163-181 | a start timer or a wait ending at a loop index `k` no larger than the content length sets slot `block` to `content[0..k]`, keeps every other slot and the length, and the slot only grows; the fired timer is replaced by one recorded wait, due 12 ms later, for the next loop index |
| Page.Generator.Resume | src/App.jsx:166-181 | step `k` of a block's typing loop writes the prefix of length `k` and adds exactly one recorded wait, due 12 ms later, for step `k + 1`, keeping the invariant |
| Page.Generator.LastWaitEnds | src/App.jsx:166-182 | the wait after the last write ends the loop: its timer leaves the table, nothing new is scheduled, and the slot shows the whole content |
| Page.Generator.FinishTimerFires | src/App.jsx:197-207 | the finish timer finds every block fully typed, sets ready, and the effect re-run leaves nothing pending or recorded |
| Page.Generator.TypeStep | src/App.jsx:169-181 | for a fired typing timer at loop index `k`, the slot becomes the prefix of length `k`, and exactly one wait, due 12 ms later for step `k + 1`, is added under a fresh handle and recorded |

## Left out

- The JSX rendering is left out, including the block components, the image
  URLs, the styling and the `typing || content || placeholder` fallback. This
  is presentation.
- The theme toggle and the show/hide chat flag (`setShowChat`, including its
  call inside `sendMessage`) are left out. These are UI flags that no modelled
  behaviour reads.
- The 700 ms latency of `fakeGenerate` is left out. A requested generation
  waits in the queue `inFlight`, and `Resolve` delivers the oldest one. The
  model does not interleave a resolution with timer events at specific
  times.
- Page.Generator.SetFinishTimer: timer delays are unbounded integers in the
  model. `setTimeout` converts its delay to a 32-bit signed integer, wrapping
  it modulo 2^32 and treating a negative result as 0. So once `estTotalTime`
  exceeds 2^31-1 ms, the source's finish timer fires at once or early, and
  the page turns ready before its blocks are typed. Through `fakeGenerate` that
  takes a prompt of about 30 million UTF-16 units. "Ready only after all
  typing" therefore holds in the source only while `estTotalTime` is at most
  2^31-1. The model accepts such inputs rather than excluding them.
- Page.Generator.Fire: the host clock is ideal. Only the earliest pending
  timer may fire, at exactly its due time, so timer drift and coarse timer
  resolution are not modelled. The "ready only after all typing" property
  depends on this.
- React semantics are left out: the state updates after the `await` are taken
  as one batch causing one effect re-run, and functional-update queues,
  `useRef` identity and the effect scheduling order are not modelled.
  `framer-motion` is not modelled either.
- A continuation whose timer was cleared is suspended forever in the source.
  In the model it is simply absent.
- Registry handles of timers that already fired stay recorded until the next
  cleanup, as in the source. Clearing them is a no-op.
- Lengths are counted in Unicode characters. JavaScript counts UTF-16 code
  units, so `content.slice(0, i)` can cut a surrogate pair. The model cannot
  show that.
- An installed empty block list starts no run, so the page stays in
  revealing. This matches the guard on `blocks.length === 0`. `fakeGenerate`
  never produces such a list.
- The `?.` and `|| ""` guards against a missing block or non-string content
  are not modelled. Every modelled block has a string content.
