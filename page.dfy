/** The generator page: the chat submission, the phase machine
    chat -> generating -> revealing -> ready, and the reveal effect that types
    every block's content character by character on staggered timers.

    Timers are explicit: the host's timer table maps each handle to the run
    that set it, its due time and the callback it will run, and `Fire` is the
    host's clock reaching the earliest of them. */
module Page {
  import opened Text
  import opened Content
  import opened Timeline

  datatype Phase = Chat | Generating | Revealing | Ready

  datatype Role = Assistant | User

  datatype Message = Message(role: Role, text: string)

  /** The assistant's opening message. */
  const Greeting: string :=
    "Привет! Расскажите немного о вашей компании — чем занимаетесь, какого размера команда, какие задачи хотите решить? На основе этого я сформирую персонализированную страницу."

  /** What a timer runs when it fires. */
  datatype Callback =
    /** A block's start timer: enter the typing loop of block `block`, whose
        text `content` was read when the run started. */
    | StartTyping(block: nat, content: string)
    /** The 12 ms wait inside that loop: resume it with loop index `next`. */
    | TypeNext(block: nat, content: string, next: nat)
    /** The finish timer: mark the page ready. */
    | MarkReady

  /** A pending timer: the run whose closure set it, its due time in
      milliseconds, and its callback. */
  datatype Timer = Timer(run: nat, due: int, callback: Callback)

  /** `t` is the one pending timer of block `i` (text `c`) of a run started at
      `start`, while the block's slot shows `shown`: either its start timer,
      before anything was written, or the wait after the write of the prefix
      of length `next - 1`. */
  predicate Scheduled(t: Timer, i: nat, c: string, start: int, shown: string) {
    match t.callback
    case StartTyping(b, s) =>
      b == i && s == c && c != [] && t.due == start + StepOffset(i, 0) && shown == []
    case TypeNext(b, s, k) =>
      b == i && s == c && 1 <= k <= |c| + 1 && t.due == start + StepOffset(i, k) && shown == c[..k - 1]
    case MarkReady => false
  }

  /** Block `i` (text `c`, slot showing `shown`) of a run started at `start`
      is where the handle `slot` says: finished if there is none, otherwise
      waiting on the timer `table` holds under that handle. */
  predicate Tracked(slot: Option<nat>, table: map<nat, Timer>, i: nat, c: string, start: int, shown: string) {
    match slot
    case None => shown == c
    case Some(h) => h in table && Scheduled(table[h], i, c, start, shown)
  }

  /** A block's progress only depends on the timer under its own handle. */
  lemma TrackedElsewhere(slot: Option<nat>, table: map<nat, Timer>, table': map<nat, Timer>,
                         i: nat, c: string, start: int, shown: string)
    requires Tracked(slot, table, i, c, start, shown)
    requires slot.Some? ==> slot.value in table' && table'[slot.value] == table[slot.value]
    ensures Tracked(slot, table', i, c, start, shown)
  {
  }

  /** The start timers a run `r` started at time `start` sets for the first
      `n` blocks: one per block with text, staggered. */
  ghost function Starts(r: nat, start: int, blocks: seq<Block>, n: nat): set<Timer>
    requires n <= |blocks|
  {
    set i | 0 <= i < n && blocks[i].content != [] ::
      Timer(r, start + StepOffset(i, 0), StartTyping(i, blocks[i].content))
  }

  /** The timers a run `r` started at time `start` sets up for `blocks`: the
      start timers and the finish timer. */
  ghost function Opening(r: nat, start: int, blocks: seq<Block>): set<Timer> {
    Starts(r, start, blocks, |blocks|) + {Timer(r, start + EstTotalTime(blocks), MarkReady)}
  }

  lemma StartsStep(r: nat, start: int, blocks: seq<Block>, n: nat)
    requires n < |blocks|
    ensures Starts(r, start, blocks, n + 1) ==
              Starts(r, start, blocks, n)
              + (if blocks[n].content != [] then {Timer(r, start + StepOffset(n, 0), StartTyping(n, blocks[n].content))} else {})
  {
  }

  /** The timer table after `clearTimeout` of every handle in `handles`. */
  function Cleared(table: map<nat, Timer>, handles: seq<nat>): (r: map<nat, Timer>)
    ensures forall h :: h in r <==> h in table && h !in handles
    ensures forall h :: h in r ==> r[h] == table[h]
  {
    map h | h in table && h !in handles :: table[h]
  }

  /** Clearing a set of handles a second time changes nothing. */
  lemma ClearedTwice(table: map<nat, Timer>, handles: seq<nat>)
    ensures Cleared(Cleared(table, handles), handles) == Cleared(table, handles)
  {
  }

  /** Clearing every recorded handle empties a table whose timers were all
      recorded; a handle not recorded survives. */
  lemma ClearedRecorded(table: map<nat, Timer>, handles: seq<nat>)
    ensures (forall h :: h in table ==> h in handles) <==> Cleared(table, handles) == map[]
  {
  }

  /** Setting a timer under a fresh handle adds exactly that timer to the
      table's contents. */
  lemma ValuesAfterSet(table: map<nat, Timer>, h: nat, t: Timer)
    requires h !in table
    ensures table[h := t].Values == table.Values + {t}
  {
    var m := table[h := t];
    forall u | u in m.Values ensures u in table.Values + {t} {
      var g :| g in m && m[g] == u;
      if g != h {
        assert g in table && table[g] == u;
      }
    }
    forall u | u in table.Values ensures u in m.Values {
      var g :| g in table && table[g] == u;
      assert g in m && m[g] == u;
    }
    assert h in m && m[h] == t;
  }

  /** The finish timer of a run comes due strictly after every pending
      typing timer of that run. */
  lemma FinishIsLast(blocks: seq<Block>, start: int, finish: Timer, t: Timer, i: nat, shown: string)
    requires i < |blocks|
    requires finish.due == start + EstTotalTime(blocks)
    requires Scheduled(t, i, blocks[i].content, start, shown)
    ensures t.due < finish.due
  {
    FinishAfterTyping(blocks, i);
  }

  class Generator {
    var messages: seq<Message>
    var userInput: string
    var phase: Phase
    var blocks: seq<Block>
    var displayedTexts: seq<string>
    /** Prompts whose generation was requested and has not been delivered,
        oldest first. */
    var inFlight: seq<string>
    /** `timersRef.current`: the handles recorded by the current run. */
    var timers: seq<nat>
    /** The host's timers that were set and have neither fired nor been
        cleared, by handle. */
    var pending: map<nat, Timer>
    /** The host's clock. */
    var now: int
    var nextHandle: nat
    /** Runs are numbered from 0; run `r`'s `cancelled` flag is
        `r in cancelled`. */
    var runCount: nat
    var cancelled: set<nat>
    /** The run whose cleanup React holds, if the last effect started one. */
    var active: Option<nat>

    /** When the active run started. */
    ghost var runStart: int
    /** For each block of the active run, the handle of its one pending
        timer, or None once its typing loop has ended. */
    ghost var cursor: seq<Option<nat>>
    /** The handle of the active run's finish timer. */
    ghost var finisher: nat

    /** Every slot shows a prefix of its block, and a ready page shows every
        block in full. */
    ghost predicate Shaped()
      reads this`displayedTexts, this`blocks, this`phase
    {
      && |displayedTexts| == |blocks|
      && (forall i :: 0 <= i < |blocks| ==> displayedTexts[i] <= blocks[i].content)
      && (phase == Ready ==> forall i :: 0 <= i < |blocks| ==> displayedTexts[i] == blocks[i].content)
    }

    /** Every pending timer is recorded, belongs to the active run and is not
        overdue; without an active run nothing is pending or recorded. */
    ghost predicate Owned()
      reads this`pending, this`nextHandle, this`timers, this`now, this`active, this`runCount, this`cancelled
    {
      && (forall r :: r in cancelled ==> r < runCount)
      && (forall h :: h in pending ==> h < nextHandle && h in timers && now <= pending[h].due)
      && (active.None? ==> pending == map[] && timers == [])
      && (active.Some? ==>
            && active.value < runCount && active.value !in cancelled
            && forall h :: h in pending ==> pending[h].run == active.value)
    }

    ghost predicate TimerOk(h: nat)
      reads this`pending, this`finisher, this`cursor
      requires h in pending
    {
      match pending[h].callback
      case MarkReady => h == finisher
      case StartTyping(i, _) => i < |cursor| && cursor[i] == Some(h)
      case TypeNext(i, _, _) => i < |cursor| && cursor[i] == Some(h)
    }

    ghost predicate BlockOk(i: nat)
      reads this`cursor, this`displayedTexts, this`blocks, this`pending, this`runStart
      requires i < |blocks| && i < |cursor| && i < |displayedTexts|
    {
      Tracked(cursor[i], pending, i, blocks[i].content, runStart, displayedTexts[i])
    }

    /** The active run's progress: each block has finished typing or has
        exactly the timer its progress calls for, and the finish timer is
        set for the estimated total time. */
    ghost predicate Live()
      reads this`active, this`cursor, this`blocks, this`displayedTexts, this`pending, this`finisher, this`runStart
    {
      && active.Some?
      && |cursor| == |blocks| == |displayedTexts|
      && (forall i :: 0 <= i < |blocks| ==> BlockOk(i))
      && (forall h :: h in pending ==> TimerOk(h))
      && finisher in pending
      && pending[finisher] == Timer(active.value, runStart + EstTotalTime(blocks), MarkReady)
    }

    ghost predicate Valid()
      reads this`displayedTexts, this`blocks, this`phase, this`cancelled, this`runCount
      reads this`pending, this`nextHandle, this`timers, this`now, this`active
      reads this`cursor, this`finisher, this`runStart
    {
      && Shaped()
      && Owned()
      && (active.Some? <==> phase == Revealing && |blocks| > 0)
      && (active.Some? ==> Live())
    }

    constructor ()
      ensures Valid()
      ensures messages == [Message(Assistant, Greeting)] && userInput == [] && phase == Chat
      ensures blocks == [] && displayedTexts == [] && inFlight == []
      ensures active == None && pending == map[] && timers == []
    {
      messages := [Message(Assistant, Greeting)];
      userInput := [];
      phase := Chat;
      blocks := [];
      displayedTexts := [];
      inFlight := [];
      timers := [];
      pending := map[];
      now := 0;
      nextHandle := 0;
      runCount := 0;
      cancelled := {};
      active := None;
      runStart := 0;
      cursor := [];
      finisher := 0;
    }

    /** The `cancelled` guards never see a raised flag: once a run's cleanup
        has set it, none of that run's timers is left to fire, so none of its
        callbacks writes a slot or sets the phase. */
    lemma NoStaleTimers()
      requires Valid()
      ensures forall h :: h in pending ==> pending[h].run !in cancelled && Some(pending[h].run) == active
    {
    }

    /** The chat input field changes. */
    method EditInput(text: string)
      requires Valid()
      modifies this`userInput
      ensures Valid() && userInput == text
    {
      userInput := text;
    }

    /** `sendMessage` up to its `await`: a blank input is ignored; otherwise
        the input becomes a user message, the input is cleared, the phase
        becomes generating (which re-runs the effect and so cancels a run in
        progress) and generation from the input is requested. */
    method Send()
      requires Valid()
      modifies this
      ensures Valid()
      ensures Blank(old(userInput)) ==> unchanged(this)
      ensures !Blank(old(userInput)) ==>
                && messages == old(messages) + [Message(User, old(userInput))]
                && userInput == [] && phase == Generating
                && inFlight == old(inFlight) + [old(userInput)]
                && blocks == old(blocks) && displayedTexts == old(displayedTexts)
                && active == None && pending == map[] && timers == []
                && cancelled == old(if active.Some? then cancelled + {active.value} else cancelled)
                && now == old(now)
    {
      TrimEmptyIffBlank(userInput);
      if Trim(userInput) != [] {
        Submit();
      }
    }

    /** The non-blank branch of `sendMessage` before its `await`. */
    method Submit()
      requires Valid()
      modifies this`messages, this`userInput, this`phase, this`inFlight
      modifies this`cancelled, this`pending, this`timers, this`active
      modifies this`runCount, this`runStart, this`cursor, this`finisher, this`nextHandle
      ensures Valid()
      ensures messages == old(messages) + [Message(User, old(userInput))]
      ensures userInput == [] && phase == Generating
      ensures inFlight == old(inFlight) + [old(userInput)]
      ensures active == None && pending == map[] && timers == []
      ensures cancelled == old(if active.Some? then cancelled + {active.value} else cancelled)
    {
      var prompt := userInput;
      messages := messages + [Message(User, prompt)];
      userInput := [];
      var was := phase;
      phase := Generating;
      inFlight := inFlight + [prompt];
      if was != phase {
        Rerun();
      }
    }

    /** `sendMessage` after its `await`: the oldest requested generation
        delivers its blocks. */
    method Resolve()
      requires Valid() && inFlight != []
      modifies this`inFlight, this`blocks, this`displayedTexts, this`phase
      modifies this`cancelled, this`pending, this`timers, this`active
      modifies this`runCount, this`runStart, this`cursor, this`finisher, this`nextHandle
      ensures Valid()
      ensures inFlight == old(inFlight[1..])
      ensures blocks == FakeGenerate(old(inFlight[0])) && phase == Revealing
      ensures |displayedTexts| == |blocks| && forall i :: 0 <= i < |blocks| ==> displayedTexts[i] == []
      ensures active == Some(old(runCount)) && pending.Values == Opening(old(runCount), now, blocks)
    {
      var prompt := inFlight[0];
      inFlight := inFlight[1..];
      var generated := FakeGenerate(prompt);
      GeneratedPageShape(prompt);
      Install(generated);
    }

    /** Installs a generated page: its blocks, an empty slot per block, the
        revealing phase, and the effect re-run that this change triggers. */
    method Install(generated: seq<Block>)
      requires Valid()
      modifies this`blocks, this`displayedTexts, this`phase
      modifies this`cancelled, this`pending, this`timers, this`active
      modifies this`runCount, this`runStart, this`cursor, this`finisher, this`nextHandle
      ensures Valid()
      ensures blocks == generated && phase == Revealing
      ensures |displayedTexts| == |generated| && forall i :: 0 <= i < |generated| ==> displayedTexts[i] == []
      ensures cancelled == old(if active.Some? then cancelled + {active.value} else cancelled)
      ensures generated == [] ==> active == None && pending == map[] && timers == []
      ensures generated != [] ==>
                active == Some(old(runCount)) && pending.Values == Opening(old(runCount), now, generated)
    {
      blocks := generated;
      displayedTexts := seq(|generated|, _ => []);
      phase := Revealing;
      Rerun();
    }

    /** React re-runs the effect because `phase` or `blocks` changed: the
        previous run's cleanup, if any, then the effect's body. */
    method Rerun()
      requires Shaped() && Owned()
      requires phase == Revealing && |blocks| > 0 ==>
                 forall i :: 0 <= i < |displayedTexts| ==> displayedTexts[i] == []
      modifies this`cancelled, this`pending, this`timers, this`active
      modifies this`runCount, this`runStart, this`cursor, this`finisher, this`nextHandle
      ensures Valid()
      ensures cancelled == old(if active.Some? then cancelled + {active.value} else cancelled)
      ensures !(phase == Revealing && |blocks| > 0) ==> active == None && pending == map[] && timers == []
      ensures phase == Revealing && |blocks| > 0 ==>
                active == Some(old(runCount)) && pending.Values == Opening(old(runCount), now, blocks)
    {
      if active.Some? {
        Cleanup(active.value);
      }
      ClearRegistry();
      if phase == Revealing && |blocks| > 0 {
        StartRun();
      }
    }

    /** The cleanup returned by run `r`: raise its `cancelled` flag, clear
        every recorded timer and empty the registry. It never touches the
        phase or the slots, and running it again changes nothing. */
    method Cleanup(r: nat)
      requires Shaped() && Owned()
      requires active == Some(r) || (active == None && r in cancelled)
      modifies this`cancelled, this`pending, this`timers, this`active
      ensures Shaped() && Owned()
      ensures cancelled == old(cancelled) + {r}
      ensures active == None && pending == map[] && timers == []
      ensures old(active) == None ==> unchanged(this)
    {
      cancelled := cancelled + {r};
      ClearRegistry();
      ClearedRecorded(old(pending), old(timers));
      active := None;
      if old(active) == None {
        assert cancelled == old(cancelled);
        assert pending == old(pending);
      }
    }

    /** `timersRef.current.forEach(clearTimeout); timersRef.current = []`. */
    method ClearRegistry()
      modifies this`pending, this`timers
      ensures pending == Cleared(old(pending), old(timers))
      ensures timers == []
    {
      var j := 0;
      while j < |timers|
        invariant 0 <= j <= |timers|
        invariant timers == old(timers)
        invariant pending == Cleared(old(pending), timers[..j])
      {
        assert timers[..j + 1] == timers[..j] + [timers[j]];
        pending := pending - {timers[j]};
        j := j + 1;
      }
      assert timers[..j] == timers;
      timers := [];
    }

    /** `setTimeout(callback, delay)` followed by recording the handle. */
    method Schedule(r: nat, delay: nat, callback: Callback) returns (h: nat)
      modifies this`pending, this`timers, this`nextHandle
      ensures h == old(nextHandle) && nextHandle == h + 1
      ensures pending == old(pending)[h := Timer(r, now + delay, callback)]
      ensures timers == old(timers) + [h]
    {
      h := nextHandle;
      nextHandle := nextHandle + 1;
      pending := pending[h := Timer(r, now + delay, callback)];
      timers := timers + [h];
    }

    /** The timers run `r` sets for block `i` when it starts at `now`: a
        start timer if the block has text, none otherwise. */
    ghost predicate Staggered(r: nat, i: nat)
      reads this`blocks, this`cursor, this`pending, this`now
      requires i < |blocks| && i < |cursor|
    {
      match cursor[i]
      case None => blocks[i].content == []
      case Some(h) =>
        h in pending && pending[h] == Timer(r, now + StepOffset(i, 0), StartTyping(i, blocks[i].content))
        && blocks[i].content != []
    }

    /** Run `r` has set the start timers of its first `n` blocks and nothing
        else. */
    ghost predicate StaggeredUpTo(r: nat, n: nat)
      reads this`blocks, this`cursor, this`pending, this`now, this`nextHandle, this`timers
    {
      && n <= |blocks| && |cursor| == |blocks|
      && (forall i :: 0 <= i < n ==> Staggered(r, i))
      && (forall i :: n <= i < |blocks| ==> cursor[i] == None)
      && (forall h :: h in pending ==>
            && h < nextHandle && h in timers
            && pending[h].callback.StartTyping? && pending[h].callback.block < n
            && cursor[pending[h].callback.block] == Some(h))
      && pending.Values == Starts(r, now, blocks, n)
    }

    /** `startTypingForBlock(blockIndex, startDelay)`: a block without text
        gets no timer; any other block gets a start timer `startDelay` from
        now. */
    method StartTypingForBlock(r: nat, blockIndex: nat, startDelay: nat)
      requires StaggeredUpTo(r, blockIndex) && blockIndex < |blocks|
      requires startDelay == StepOffset(blockIndex, 0)
      modifies this`pending, this`timers, this`nextHandle, this`cursor
      ensures StaggeredUpTo(r, blockIndex + 1)
      ensures blocks[blockIndex].content == [] ==>
                pending == old(pending) && timers == old(timers) && nextHandle == old(nextHandle)
      ensures blocks[blockIndex].content != [] ==>
                && nextHandle == old(nextHandle) + 1
                && pending == old(pending)[old(nextHandle) :=
                                Timer(r, now + startDelay, StartTyping(blockIndex, blocks[blockIndex].content))]
                && timers == old(timers) + [old(nextHandle)]
    {
      StartsStep(r, now, blocks, blockIndex);
      var content := blocks[blockIndex].content;
      if content == [] {
        return;
      }
      ghost var before := pending;
      var t := Schedule(r, startDelay, StartTyping(blockIndex, content));
      ValuesAfterSet(before, t, pending[t]);
      cursor := cursor[blockIndex := Some(t)];
      forall i | 0 <= i < blockIndex ensures Staggered(r, i) {
        assert old(Staggered(r, i));
        if old(cursor[i]).Some? {
          assert old(cursor[i]).value in before;
        }
      }
    }

    /** `blocks.forEach((b, idx) => startTypingForBlock(idx, idx * 400))`. */
    method StaggerBlocks(r: nat)
      requires pending == map[] && timers == []
      modifies this`pending, this`timers, this`nextHandle, this`cursor
      ensures StaggeredUpTo(r, |blocks|)
    {
      cursor := seq(|blocks|, _ => None);
      var idx := 0;
      while idx < |blocks|
        invariant 0 <= idx <= |blocks|
        invariant StaggeredUpTo(r, idx)
      {
        StartTypingForBlock(r, idx, StepOffset(idx, 0));
        idx := idx + 1;
      }
    }

    /** The effect's body past its guard: a new run, staggered start timers
        for the blocks, and the finish timer at the estimated total time. */
    method StartRun()
      requires Shaped() && phase == Revealing && |blocks| > 0
      requires forall i :: 0 <= i < |displayedTexts| ==> displayedTexts[i] == []
      requires active == None && pending == map[] && timers == []
      requires forall r :: r in cancelled ==> r < runCount
      modifies this`runCount, this`active, this`runStart, this`cursor, this`finisher
      modifies this`pending, this`timers, this`nextHandle
      ensures Valid()
      ensures active == Some(old(runCount)) && runCount == old(runCount) + 1 && runStart == now
      ensures pending.Values == Opening(old(runCount), now, blocks)
    {
      var r := runCount;
      runCount := runCount + 1;
      active := Some(r);
      runStart := now;
      StaggerBlocks(r);
      SetFinishTimer(r);
    }

    /** The finish timer, `estTotalTime` after the run started, recorded
        like the others. */
    method SetFinishTimer(r: nat)
      requires Shaped() && phase == Revealing && |blocks| > 0
      requires forall i :: 0 <= i < |displayedTexts| ==> displayedTexts[i] == []
      requires active == Some(r) && r < runCount && r !in cancelled && runStart == now
      requires forall r' :: r' in cancelled ==> r' < runCount
      requires StaggeredUpTo(r, |blocks|)
      modifies this`finisher, this`pending, this`timers, this`nextHandle
      ensures Valid()
      ensures pending.Values == Opening(r, now, blocks)
    {
      var estTotalTime := EstTotalTime(blocks);
      ghost var before := pending;
      var f := Schedule(r, estTotalTime, MarkReady);
      ValuesAfterSet(before, f, pending[f]);
      finisher := f;
      forall i | 0 <= i < |blocks| ensures BlockOk(i) {
        assert old(Staggered(r, i));
        if cursor[i].Some? {
          assert cursor[i].value in before;
        }
      }
      forall g | g in pending ensures TimerOk(g) && pending[g].run == r && now <= pending[g].due {
        if g != f {
          assert g in before;
          assert old(Staggered(r, pending[g].callback.block));
        }
      }
      assert Owned();
      assert Live();
    }

    /** `h` is the pending timer the host runs next. */
    ghost predicate Earliest(h: nat)
      reads this`pending
    {
      h in pending && forall g :: g in pending ==> pending[h].due <= pending[g].due
    }

    /** The host's clock reaches the earliest pending timer `h`, which runs. */
    method Fire(h: nat)
      requires Valid() && Earliest(h)
      modifies this
      ensures Valid()
      ensures now == old(pending[h].due)
      ensures messages == old(messages) && userInput == old(userInput) && inFlight == old(inFlight)
      ensures blocks == old(blocks) && |displayedTexts| == old(|displayedTexts|)
      ensures forall i :: 0 <= i < |blocks| ==> old(displayedTexts[i]) <= displayedTexts[i]
      ensures !old(pending[h].callback).MarkReady? ==> phase == old(phase)
      ensures old(pending[h].callback).MarkReady? ==>
                && phase == Ready && displayedTexts == old(displayedTexts)
                && (forall i :: 0 <= i < |blocks| ==> displayedTexts[i] == blocks[i].content)
                && active == None && pending == map[] && timers == []
                && old(active).Some? && cancelled == old(cancelled) + {old(active).value}
      ensures !old(pending[h].callback).MarkReady? ==> cancelled == old(cancelled) && runCount == old(runCount)
      ensures var t := old(pending[h]);
              !t.callback.MarkReady? && LoopIndex(t.callback) <= |t.callback.content| ==>
                && displayedTexts == old(displayedTexts)[t.callback.block := t.callback.content[..LoopIndex(t.callback)]]
                && pending == (old(pending) - {h})[old(nextHandle) := NextWait(t)]
                && timers == old(timers) + [old(nextHandle)]
      ensures var t := old(pending[h]);
              t.callback.TypeNext? && t.callback.next > |t.callback.content| ==>
                && displayedTexts == old(displayedTexts) && pending == old(pending) - {h} && timers == old(timers)
                && nextHandle == old(nextHandle)
    {
      match pending[h].callback
      case StartTyping(_, _) =>
        TypingTimerFires(h);
      case TypeNext(_, content, k) =>
        if k <= |content| {
          TypingTimerFires(h);
        } else {
          LastWaitEnds(h);
        }
      case MarkReady =>
        FinishTimerFires(h);
    }

    /** The wait a typing timer's step sets: 12 ms on, for the next loop
        index. */
    static function NextWait(t: Timer): Timer
      requires !t.callback.MarkReady?
    {
      Timer(t.run, t.due + CharDelayMs, TypeNext(t.callback.block, t.callback.content, LoopIndex(t.callback) + 1))
    }

    /** The loop index a typing callback runs its step with. */
    static function LoopIndex(cb: Callback): nat
      requires !cb.MarkReady?
    {
      if cb.StartTyping? then 0 else cb.next
    }

    /** The active run with block `i` between two steps of its typing loop:
        its timer has fired, its slot shows what the steps before index `k`
        wrote, and every other block and timer is as `Valid` requires. */
    ghost predicate Paused(i: nat, k: nat)
      reads this`displayedTexts, this`blocks, this`phase, this`cancelled, this`runCount
      reads this`pending, this`nextHandle, this`timers, this`now, this`active
      reads this`cursor, this`finisher, this`runStart
    {
      && Shaped() && Owned()
      && active.Some? && phase == Revealing
      && |cursor| == |blocks| == |displayedTexts| && i < |blocks|
      && (forall j :: 0 <= j < |blocks| && j != i ==> BlockOk(j))
      && cursor[i] == None
      && (forall h :: h in pending ==> TimerOk(h))
      && finisher in pending
      && pending[finisher] == Timer(active.value, runStart + EstTotalTime(blocks), MarkReady)
      && k <= |blocks[i].content| + 1 && now == runStart + StepOffset(i, k)
      && (k == 0 ==> blocks[i].content != [] && displayedTexts[i] == [])
      && (k > 0 ==> displayedTexts[i] == blocks[i].content[..k - 1])
    }

    /** The host takes the earliest timer `h`, a typing one, off its table
        and advances its clock to it. */
    method TakeTimer(h: nat) returns (t: Timer)
      requires Valid() && Earliest(h) && !pending[h].callback.MarkReady?
      modifies this`pending, this`now, this`cursor
      ensures t == old(pending[h]) && pending == old(pending) - {h} && now == t.due
      ensures Some(t.run) == active && t.run !in cancelled
      ensures t.callback.block < |blocks| && t.callback.content == blocks[t.callback.block].content
      ensures Paused(t.callback.block, LoopIndex(t.callback))
    {
      t := pending[h];
      var i := t.callback.block;
      assert TimerOk(h) && BlockOk(i);
      ghost var track := cursor;
      pending := pending - {h};
      now := t.due;
      cursor := cursor[i := None];
      assert Owned() by {
        forall g | g in pending ensures g in old(pending) {}
      }
      forall j | 0 <= j < |blocks| && j != i ensures BlockOk(j) {
        assert old(BlockOk(j));
        if track[j].Some? {
          assert track[j].value != h;
        }
        TrackedElsewhere(cursor[j], old(pending), pending, j, blocks[j].content, runStart, displayedTexts[j]);
      }
      forall g | g in pending ensures TimerOk(g) {
        assert old(TimerOk(g));
      }
    }

    /** A block's start timer, or a wait of its typing loop that ends with the
        loop index `k <= |content|`: unless the run was cancelled, slot
        `block` shows the first `k` characters and the next wait starts. Every
        other slot is left alone. */
    method TypingTimerFires(h: nat)
      requires Valid() && Earliest(h)
      requires pending[h].callback.StartTyping?
               || (pending[h].callback.TypeNext? && pending[h].callback.next <= |pending[h].callback.content|)
      modifies this`displayedTexts, this`pending, this`timers, this`nextHandle, this`cursor, this`now
      ensures Valid()
      ensures now == old(pending[h].due)
      ensures var cb := old(pending[h].callback);
              && cb.block < |displayedTexts| == old(|displayedTexts|)
              && displayedTexts == old(displayedTexts)[cb.block := cb.content[..LoopIndex(cb)]]
              && old(displayedTexts[cb.block]) <= displayedTexts[cb.block]
      ensures var t := old(pending[h]);
              && pending == (old(pending) - {h})[old(nextHandle) := NextWait(t)]
              && timers == old(timers) + [old(nextHandle)] && nextHandle == old(nextHandle) + 1
    {
      var t := TakeTimer(h);
      if t.run !in cancelled {
        Resume(t);
      }
    }

    /** The typing loop of the block of the fired timer `t` runs its step
        `k <= |content|`: the slot shows the first `k` characters and the next
        wait is set. */
    method Resume(t: Timer)
      requires !t.callback.MarkReady? && t.callback.block < |blocks|
      requires Paused(t.callback.block, LoopIndex(t.callback)) && active == Some(t.run) && now == t.due
      requires t.callback.content == blocks[t.callback.block].content
      requires LoopIndex(t.callback) <= |t.callback.content|
      modifies this`displayedTexts, this`pending, this`timers, this`nextHandle, this`cursor
      ensures Valid()
      ensures var i := t.callback.block;
              && displayedTexts == old(displayedTexts)[i := t.callback.content[..LoopIndex(t.callback)]]
              && old(displayedTexts[i]) <= displayedTexts[i]
      ensures pending == old(pending)[old(nextHandle) := NextWait(t)]
      ensures timers == old(timers) + [old(nextHandle)] && nextHandle == old(nextHandle) + 1
    {
      var i := t.callback.block;
      ghost var table := pending;
      var next := TypeStep(t);
      assert Shaped() by {
        forall j | 0 <= j < |blocks| ensures displayedTexts[j] <= blocks[j].content {
          if j != i {
            assert old(displayedTexts[j] <= blocks[j].content);
          }
        }
      }
      assert Owned() by {
        forall g | g in pending ensures g < nextHandle && g in timers && now <= pending[g].due
        {
          if g != next {
            assert old(g in pending);
          }
        }
      }
      forall j | 0 <= j < |blocks| && j != i ensures BlockOk(j) && (cursor[j].Some? ==> cursor[j].value != next) {
        assert old(BlockOk(j));
        if cursor[j].Some? {
          assert cursor[j].value in table;
        }
        TrackedElsewhere(cursor[j], table, pending, j, blocks[j].content, runStart, displayedTexts[j]);
      }
      forall g | g in pending && g != next ensures TimerOk(g) {
        assert old(TimerOk(g));
      }
      Track(i, next);
    }

    /** Block `i` has written its step and set its next wait `h`, which is
        not yet its cursor; everything else is as `Valid` requires. */
    ghost predicate Stepped(i: nat, h: nat)
      reads this`displayedTexts, this`blocks, this`phase, this`cancelled, this`runCount
      reads this`pending, this`nextHandle, this`timers, this`now, this`active
      reads this`cursor, this`finisher, this`runStart
    {
      && Shaped() && Owned()
      && active.Some? && phase == Revealing
      && |cursor| == |blocks| == |displayedTexts| && i < |blocks|
      && (forall j :: 0 <= j < |blocks| && j != i ==> BlockOk(j))
      && (forall j :: 0 <= j < |blocks| && j != i && cursor[j].Some? ==> cursor[j].value != h)
      && cursor[i] == None
      && h in pending && Scheduled(pending[h], i, blocks[i].content, runStart, displayedTexts[i])
      && (forall g :: g in pending && g != h ==> TimerOk(g))
      && finisher in pending
      && pending[finisher] == Timer(active.value, runStart + EstTotalTime(blocks), MarkReady)
    }

    /** Block `i` takes its new wait `h` as its cursor. */
    ghost method Track(i: nat, h: nat)
      requires Stepped(i, h)
      modifies this`cursor
      ensures Valid()
    {
      cursor := cursor[i := Some(h)];
      assert BlockOk(i);
      forall j | 0 <= j < |blocks| && j != i ensures BlockOk(j) {
        assert old(BlockOk(j));
      }
      forall g | g in pending ensures TimerOk(g) {
        if g != h {
          assert old(TimerOk(g));
        }
      }
    }

    /** The wait after a block's last write ends: the loop index passes the
        content's length and the typing loop exits without writing. */
    method LastWaitEnds(h: nat)
      requires Valid() && Earliest(h)
      requires pending[h].callback.TypeNext? && pending[h].callback.next > |pending[h].callback.content|
      modifies this`pending, this`now, this`cursor
      ensures Valid()
      ensures now == old(pending[h].due)
      ensures var cb := old(pending[h].callback);
              cb.block < |displayedTexts| && displayedTexts[cb.block] == cb.content
      ensures pending == old(pending) - {h} && timers == old(timers)
    {
      var t := TakeTimer(h);
      var content := t.callback.content;
      assert content[..|content|] == content;
    }

    /** The finish timer: unless the run was cancelled, the phase becomes
        ready, which re-runs the effect and so tears the run down. By then
        every block has finished typing. */
    method FinishTimerFires(h: nat)
      requires Valid() && Earliest(h)
      requires pending[h].callback.MarkReady?
      modifies this`now, this`phase
      modifies this`cancelled, this`pending, this`timers, this`active
      modifies this`runCount, this`runStart, this`cursor, this`finisher, this`nextHandle
      ensures Valid()
      ensures now == old(pending[h].due)
      ensures phase == Ready && forall i :: 0 <= i < |blocks| ==> displayedTexts[i] == blocks[i].content
      ensures active == None && pending == map[] && timers == []
      ensures old(active).Some? && cancelled == old(cancelled) + {old(active).value}
    {
      var t := pending[h];
      ghost var table := pending;
      pending := pending - {h};
      now := t.due;
      if t.run !in cancelled {
        forall j | 0 <= j < |blocks| ensures displayedTexts[j] == blocks[j].content {
          assert old(BlockOk(j));
          if cursor[j].Some? {
            FinishIsLast(blocks, runStart, t, table[cursor[j].value], j, displayedTexts[j]);
            assert false;
          }
        }
        phase := Ready;
        Rerun();
      }
    }

    /** One pass of the typing loop of the block of the fired timer `t`: write
        the prefix of length `k` into its slot, then wait 12 ms on a recorded
        timer for step `k + 1`. */
    method TypeStep(t: Timer) returns (h: nat)
      requires !t.callback.MarkReady? && now == t.due
      requires LoopIndex(t.callback) <= |t.callback.content| && t.callback.block < |displayedTexts|
      modifies this`displayedTexts, this`pending, this`timers, this`nextHandle
      ensures displayedTexts == old(displayedTexts)[t.callback.block := t.callback.content[..LoopIndex(t.callback)]]
      ensures h == old(nextHandle) && nextHandle == h + 1
      ensures pending == old(pending)[h := NextWait(t)]
      ensures pending[h] == Timer(t.run, now + CharDelayMs, TypeNext(t.callback.block, t.callback.content, LoopIndex(t.callback) + 1))
      ensures timers == old(timers) + [h]
    {
      var blockIndex, content, k := t.callback.block, t.callback.content, LoopIndex(t.callback);
      displayedTexts := displayedTexts[blockIndex := content[..k]];
      h := Schedule(t.run, CharDelayMs, TypeNext(blockIndex, content, k + 1));
    }
  }
}
