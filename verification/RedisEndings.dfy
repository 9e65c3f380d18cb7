/**
 The Redis subscription over whole runs: when a reader may leave and always can, and that whatever
 it was handed out it yields, in order.
 */
module RedisEndings {
  import opened PyText
  import Buffer = RunBuffer
  import opened RedisRunBuffer

  // ---------- When the run is marked done ----------

  /** The writer has set the flag that readers look at. */
  predicate MarkedDone(w: Writer) { w.MetaSet? || w.Closed? }

  /** The flag and the done message say what the writer did, and a reader on its way out was told so. */
  predicate TellsTheTruth(s: State) {
    && (s.metaDone <==> MarkedDone(s.writer))
    && (forall m | m in s.inbox && m.text == DONE_MESSAGE :: s.writer.Closed?)
    && (s.reader.Tailing? && s.reader.runDone ==> MarkedDone(s.writer))
    && (s.reader.Leaving? || s.reader.Returned? || s.reader.ReturnedEarly? ==> MarkedDone(s.writer))
  }

  lemma ChunkIsNoDone(n: nat, raw: string)
    ensures Buffer.WrapSseChunk(n, raw) != DONE_MESSAGE
  {
    assert DONE_MESSAGE[0] == '_' && Buffer.WrapSseChunk(n, raw)[0] == 'i';
  }

  lemma StepTellsTheTruth(s: State, step: Step, after: int)
    requires TellsTheTruth(s)
    ensures TellsTheTruth(Apply(s, step, after))
  {
    hide Buffer.WrapSseChunk, CursorFromChunk, After, Highest, Trim;
    if step == Commit && s.writer.Reserved? {
      ChunkIsNoDone(s.writer.id, s.writer.raw);
    }
  }

  lemma {:induction false} RunTellsTheTruth(steps: seq<Step>, after: int)
    ensures TellsTheTruth(Run(steps, after))
  {
    hide Apply;
    if steps != [] {
      RunTellsTheTruth(steps[..|steps| - 1], after);
      StepTellsTheTruth(Run(steps[..|steps| - 1], after), steps[|steps| - 1], after);
    }
  }

  // ---------- Why a reader left ----------

  /** A step in which a reader learns that the run is done. */
  predicate Learns(s: State, step: Step) {
    match step
    case CheckMeta => s.reader.Replaying? && s.reader.rest == [] && MarkedDone(s.writer)
    case ReadMeta => s.reader.Polling? && MarkedDone(s.writer)
    case Receive => s.reader.Head? && s.inbox != [] && s.inbox[0].text == DONE_MESSAGE && s.writer.Closed?
    case _ => false
  }

  predicate OnTheWayOut(r: Reader) {
    r.ReturnedEarly? || r.Returned? || r.Leaving? || (r.Tailing? && r.runDone)
  }

  lemma LeavesByLearning(s: State, step: Step, after: int)
    requires TellsTheTruth(s) && !OnTheWayOut(s.reader) && OnTheWayOut(Apply(s, step, after).reader)
    ensures Learns(s, step) && (step == CheckMeta <==> Apply(s, step, after).reader.ReturnedEarly?)
  {
    hide Buffer.WrapSseChunk, CursorFromChunk, After, Highest, Trim;
    if step == Receive {
      assert s.inbox[0] in s.inbox;
    }
  }

  lemma StaysOut(s: State, step: Step, after: int)
    requires OnTheWayOut(s.reader)
    ensures var t := Apply(s, step, after);
            OnTheWayOut(t.reader) && (t.reader.ReturnedEarly? <==> s.reader.ReturnedEarly?)
  {
    hide Buffer.WrapSseChunk, CursorFromChunk, After, Highest, Trim;
  }

  /**
   In every run a reader that left, or is on its way out, was told at step `n` that the run is done,
   and it was: by the check behind the replay if it returned early, else by a poll or the message.
   */
  lemma {:induction false} WhyItLeft(steps: seq<Step>, after: int) returns (n: nat)
    requires OnTheWayOut(Run(steps, after).reader)
    ensures n < |steps| && Learns(Run(steps[..n], after), steps[n])
    ensures Run(steps, after).reader.ReturnedEarly? <==> steps[n] == CheckMeta
  {
    hide Apply, Learns, OnTheWayOut;
    if steps == [] {
      NobodyLeftYet(after);
    } else {
      var init, last := steps[..|steps| - 1], steps[|steps| - 1];
      RunTellsTheTruth(init, after);
      if OnTheWayOut(Run(init, after).reader) {
        n := WhyItLeft(init, after);
        assert init[..n] == steps[..n];
        StaysOut(Run(init, after), last, after);
      } else {
        n := |init|;
        LeavesByLearning(Run(init, after), last, after);
      }
    }
  }

  lemma NobodyLeftYet(after: int)
    ensures !OnTheWayOut(Run([], after).reader)
  {
  }

  // ---------- Where a reader's own steps lead ----------

  predicate ReaderStep(step: Step) {
    step.Replay? || step.Yield? || step.CheckMeta? || step.Connect? || step.Receive? || step.TimeOut? ||
    step.ReadMeta? || step.ReadTail?
  }

  predicate ReaderSteps(steps: seq<Step>) { forall step | step in steps :: ReaderStep(step) }

  /** What a reader does next, when no message comes at the head of the loop. */
  function NextStep(r: Reader): Step {
    match r
    case Fresh => Replay
    case Replaying(rest, _) => if rest == [] then CheckMeta else Yield
    case Connecting(_) => Connect
    case Head(_) => TimeOut
    case Polling(_) => ReadMeta
    case Tailing(_, _) => ReadTail
    case _ => Yield
  }

  /** The server is as it was, but for the messages. */
  predicate ServerSame(s: State, t: State) {
    && t.log == s.log && t.counter == s.counter && t.entries == s.entries
    && t.metaDone == s.metaDone && t.writer == s.writer
  }

  lemma ReaderKeepsServer(s: State, step: Step, after: int)
    requires ReaderStep(step)
    ensures ServerSame(s, Apply(s, step, after))
  {
    hide Buffer.WrapSseChunk, CursorFromChunk, After, Highest, Trim;
  }

  // ---------- Paths ----------

  /** The state after some more steps. */
  function Then(s: State, steps: seq<Step>, after: int): State {
    if steps == [] then s else Apply(Then(s, steps[..|steps| - 1], after), steps[|steps| - 1], after)
  }

  lemma {:induction false} ThenConcat(s: State, a: seq<Step>, b: seq<Step>, after: int)
    ensures Then(s, a + b, after) == Then(Then(s, a, after), b, after)
  {
    hide Apply;
    if b == [] {
      assert a + b == a;
    } else {
      ThenConcat(s, a, b[..|b| - 1], after);
      assert (a + b)[..|a| + |b| - 1] == a + b[..|b| - 1];
    }
  }

  lemma {:induction false} RunThen(steps: seq<Step>, more: seq<Step>, after: int)
    ensures Run(steps + more, after) == Then(Run(steps, after), more, after)
  {
    hide Apply;
    if more == [] {
      assert steps + more == steps;
    } else {
      RunThen(steps, more[..|more| - 1], after);
      assert (steps + more)[..|steps| + |more| - 1] == steps + more[..|more| - 1];
    }
  }

  lemma ThenOne(s: State, step: Step, after: int)
    ensures Then(s, [step], after) == Apply(s, step, after)
  {
    hide Apply;
    assert [step][..0] == [];
  }

  lemma {:induction false} ReaderKeepsServerAll(s: State, steps: seq<Step>, after: int)
    requires ReaderSteps(steps)
    ensures ServerSame(s, Then(s, steps, after))
  {
    hide Apply;
    if steps != [] {
      var init := steps[..|steps| - 1];
      assert forall step | step in init :: step in steps;
      ReaderKeepsServerAll(s, init, after);
      ReaderKeepsServer(Then(s, init, after), steps[|steps| - 1], after);
    }
  }

  lemma {:induction false} ThenTellsTheTruth(s: State, steps: seq<Step>, after: int)
    requires TellsTheTruth(s)
    ensures TellsTheTruth(Then(s, steps, after))
  {
    hide Apply, TellsTheTruth;
    if steps != [] {
      ThenTellsTheTruth(s, steps[..|steps| - 1], after);
      StepTellsTheTruth(Then(s, steps[..|steps| - 1], after), steps[|steps| - 1], after);
    }
  }

  // ---------- Yielding what waits ----------

  function Texts(entries: seq<Entry>): seq<string> {
    seq(|entries|, k requires 0 <= k < |entries| => entries[k].text)
  }

  function Yields(n: nat): seq<Step> { seq(n, _ => Yield) }

  /** The same place with nothing left to yield. */
  function Emptied(r: Reader): Reader {
    match r
    case Replaying(_, cursor) => Replaying([], cursor)
    case Catching(_, cursor) => Catching([], cursor)
    case Leaving(_) => Leaving([])
    case _ => r
  }

  lemma YieldOne(s: State, after: int)
    requires Waiting(s.reader) != []
    ensures var t, rest := Apply(s, Yield, after), Waiting(s.reader);
            && Waiting(t.reader) == rest[1..] && Emptied(t.reader) == Emptied(s.reader)
            && t.yielded == s.yielded + [rest[0].text]
  {
  }

  /** What waits is yielded in order, and the reader is then where it was. */
  lemma {:induction false} YieldsDeliver(s: State, after: int)
    ensures var t, rest := Then(s, Yields(|Waiting(s.reader)|), after), Waiting(s.reader);
            t.reader == Emptied(s.reader) && t.yielded == s.yielded + Texts(rest)
    decreases |Waiting(s.reader)|
  {
    hide Apply, Emptied;
    var rest := Waiting(s.reader);
    if rest == [] {
      assert Yields(0) == [] && s.yielded + Texts(rest) == s.yielded;
      EmptyIsEmptied(s.reader);
    } else {
      var t := Apply(s, Yield, after);
      YieldOne(s, after);
      YieldsDeliver(t, after);
      assert Yields(|rest|) == [Yield] + Yields(|rest| - 1);
      ThenOne(s, Yield, after);
      ThenConcat(s, [Yield], Yields(|rest| - 1), after);
      assert Texts(rest) == [rest[0].text] + Texts(rest[1..]);
      assert s.yielded + [rest[0].text] + Texts(rest[1..]) == s.yielded + ([rest[0].text] + Texts(rest[1..]));
    }
  }

  lemma EmptyIsEmptied(r: Reader)
    requires Waiting(r) == []
    ensures Emptied(r) == r
  {
  }

  /** Everything that waits, and the step after it. */
  function Batch(r: Reader): seq<Step> { Yields(|Waiting(r)|) + [NextStep(Emptied(r))] }

  lemma BatchLeads(s: State, after: int)
    requires TellsTheTruth(s)
    ensures ReaderSteps(Batch(s.reader))
    ensures var t := Then(s, Batch(s.reader), after);
            && ServerSame(s, t) && TellsTheTruth(t)
            && (exists y: State :: y.reader == Emptied(s.reader) && ServerSame(s, y) && t == Apply(y, NextStep(y.reader), after))
  {
    hide Apply, TellsTheTruth;
    YieldsDeliver(s, after);
    var y := Then(s, Yields(|Waiting(s.reader)|), after);
    ReaderKeepsServerAll(s, Yields(|Waiting(s.reader)|), after);
    ThenConcat(s, Yields(|Waiting(s.reader)|), [NextStep(y.reader)], after);
    ThenOne(y, NextStep(y.reader), after);
    ReaderKeepsServerAll(s, Batch(s.reader), after);
    ThenTellsTheTruth(s, Batch(s.reader), after);
  }

  // ---------- A live reader gets to the head of the loop ----------

  /** The places a reader of a live run still passes before the head of the loop. */
  function ToGo(r: Reader): nat {
    match r
    case Fresh => 3
    case Replaying(_, _) => 2
    case Connecting(_) => 1
    case Head(_) => 0
    case Polling(_) => 3
    case Tailing(_, _) => 2
    case Catching(_, _) => 1
    case _ => 0
  }

  lemma LiveNext(s: State, y: State, after: int)
    requires TellsTheTruth(s) && !s.metaDone && !s.reader.Head?
    requires y.reader == Emptied(s.reader) && ServerSame(s, y)
    ensures ToGo(Apply(y, NextStep(y.reader), after).reader) < ToGo(s.reader)
  {
    hide After, Highest;
  }

  lemma {:induction false} ToHead(s: State, after: int) returns (more: seq<Step>)
    requires TellsTheTruth(s) && !s.metaDone
    ensures ReaderSteps(more) && ServerSame(s, Then(s, more, after)) && Then(s, more, after).reader.Head?
    decreases ToGo(s.reader)
  {
    hide Apply, Emptied, Batch;
    if s.reader.Head? {
      more := [];
    } else {
      BatchLeads(s, after);
      var t := Then(s, Batch(s.reader), after);
      var y: State :| y.reader == Emptied(s.reader) && ServerSame(s, y) && t == Apply(y, NextStep(y.reader), after);
      LiveNext(s, y, after);
      more := ToHead(t, after);
      ThenConcat(s, Batch(s.reader), more, after);
      more := Batch(s.reader) + more;
    }
  }

  const POLL := [TimeOut, ReadMeta, ReadTail]

  lemma PollLeads(s: State, after: int)
    requires s.reader.Head? && !s.metaDone
    ensures var t, tail := Then(s, POLL, after), After(s.entries, s.reader.cursor);
            && t.reader == Catching(tail, Highest(s.reader.cursor, tail))
            && t.yielded == s.yielded && t.seen == s.seen && ServerSame(s, t)
  {
    hide After, Highest;
    assert POLL == [TimeOut] + [ReadMeta] + [ReadTail];
    ThenConcat(s, [TimeOut] + [ReadMeta], [ReadTail], after);
    ThenConcat(s, [TimeOut], [ReadMeta], after);
    var a := Apply(s, TimeOut, after);
    var b := Apply(a, ReadMeta, after);
    ThenOne(s, TimeOut, after);
    ThenOne(a, ReadMeta, after);
    ThenOne(b, ReadTail, after);
  }

  lemma YieldsAreReaderSteps(n: nat)
    ensures ReaderSteps(POLL + (Yields(n) + [Yield]))
  {
  }

  /** One poll yields everything after the cursor that is still in the list, in order. */
  lemma PollCatchesUp(s: State, after: int) returns (more: seq<Step>)
    requires s.reader.Head? && !s.metaDone
    ensures ReaderSteps(more)
    ensures var t, tail := Then(s, more, after), After(s.entries, s.reader.cursor);
            && ServerSame(s, t) && t.reader == Head(Highest(s.reader.cursor, tail))
            && t.yielded == s.yielded + Texts(tail)
  {
    hide Apply, After, Highest, Yields, Texts, Then, ReaderSteps, ServerSame;
    PollLeads(s, after);
    var caught := Then(s, POLL, after);
    var n := |Waiting(caught.reader)|;
    YieldsDeliver(caught, after);
    var empty := Then(caught, Yields(n), after);
    ThenOne(empty, Yield, after);
    ThenConcat(caught, Yields(n), [Yield], after);
    ThenConcat(s, POLL, Yields(n) + [Yield], after);
    more := POLL + (Yields(n) + [Yield]);
    YieldsAreReaderSteps(n);
    ReaderKeepsServerAll(s, more, after);
    LeavesCatching(empty, after);
  }

  lemma LeavesCatching(s: State, after: int)
    requires s.reader.Catching? && s.reader.rest == []
    ensures Apply(s, Yield, after) == s.(reader := Head(s.reader.cursor))
  {
  }

  lemma StaysPlain(steps: seq<Step>, more: seq<Step>)
    requires PlainChunks(steps) && ReaderSteps(more)
    ensures PlainChunks(steps + more)
  {
  }

  /**
   From every state of every run that is not done, a subscriber comes to the head of the live loop
   by its own steps, whatever the producer does or leaves undone, with nothing missing: the newest
   chunk is yielded, or was never asked for.
   */
  lemma LiveReaderCatchesUp(steps: seq<Step>, after: int) returns (more: seq<Step>)
    requires PlainChunks(steps) && -1 <= after && !MarkedDone(Run(steps, after).writer)
    ensures ReaderSteps(more)
    ensures var s, t := Run(steps, after), Run(steps + more, after);
            && t.reader.Head? && ServerSame(s, t)
            && |t.log| - 1 <= t.reader.cursor && (|t.log| - 1 <= after || Delivered(t, |t.log| - 1))
  {
    hide Apply, Inv, Delivered;
    var s := Run(steps, after);
    RunTellsTheTruth(steps, after);
    var there := ToHead(s, after);
    var head := Then(s, there, after);
    var poll := PollCatchesUp(head, after);
    more := there + poll;
    ThenConcat(s, there, poll, after);
    RunThen(steps, more, after);
    RunThen(steps, there, after);
    StaysPlain(steps, there);
    StaysPlain(steps, more);
    RunKeeps(steps + there, after);
    RunKeeps(steps + more, after);
    CaughtUp(head, after);
    FinallySeen(Run(steps + more, after), after);
    HeadIsHighest(Run(steps + more, after), after);
  }

  lemma CaughtUp(s: State, after: int)
    requires Inv(s, after) && -1 <= after && s.reader.Head?
    ensures |s.log| - 1 <= Highest(s.reader.cursor, After(s.entries, s.reader.cursor))
  {
    HighestSeenAtLeast(after, s.seen);
    CatchUp(s.entries, s.log, s.reader.cursor);
  }

  lemma HeadIsHighest(s: State, after: int)
    requires Inv(s, after) && s.reader.Head?
    ensures s.reader.cursor == HighestSeen(after, s.seen)
  {
  }

  // ---------- The reader of a finished run gets out ----------

  function ToExit(r: Reader): nat {
    match r
    case Fresh => 10
    case Replaying(_, _) => 9
    case Connecting(_) => 8
    case Tailing(runDone, _) => if runDone then 4 else 8
    case Catching(_, _) => 7
    case Head(_) => 6
    case Polling(_) => 5
    case Leaving(_) => 3
    case _ => 0
  }

  /** Before the check behind the replay, or returned by it. */
  predicate Early(r: Reader) { r.Fresh? || r.Replaying? || r.ReturnedEarly? }

  lemma DoneNext(s: State, y: State, after: int)
    requires TellsTheTruth(s) && s.metaDone && !s.reader.Returned? && !s.reader.ReturnedEarly?
    requires y.reader == Emptied(s.reader) && ServerSame(s, y)
    ensures var r := Apply(y, NextStep(y.reader), after).reader;
            ToExit(r) < ToExit(s.reader) && (Early(r) <==> Early(s.reader))
  {
    hide After, Highest;
  }

  lemma {:induction false} ToTheExit(s: State, after: int) returns (more: seq<Step>)
    requires TellsTheTruth(s) && s.metaDone
    ensures ReaderSteps(more)
    ensures var t := Then(s, more, after);
            ServerSame(s, t) && if Early(s.reader) then t.reader.ReturnedEarly? else t.reader.Returned?
    decreases ToExit(s.reader)
  {
    hide Apply, Emptied, Batch;
    if s.reader.Returned? || s.reader.ReturnedEarly? {
      more := [];
    } else {
      BatchLeads(s, after);
      var t := Then(s, Batch(s.reader), after);
      var y: State :| y.reader == Emptied(s.reader) && ServerSame(s, y) && t == Apply(y, NextStep(y.reader), after);
      DoneNext(s, y, after);
      more := ToTheExit(t, after);
      ThenConcat(s, Batch(s.reader), more, after);
      more := Batch(s.reader) + more;
    }
  }

  /**
   From every state of every run that is marked done, a subscriber gets out by its own steps, even
   if the done message never reaches it: early if it has not been past the check behind the replay,
   and otherwise with the last chunk yielded or never asked for.
   */
  lemma DoneReaderLeaves(steps: seq<Step>, after: int) returns (more: seq<Step>)
    requires PlainChunks(steps) && -1 <= after && MarkedDone(Run(steps, after).writer)
    ensures ReaderSteps(more)
    ensures var s, t := Run(steps, after), Run(steps + more, after);
            && ServerSame(s, t)
            && if Early(s.reader) then t.reader.ReturnedEarly?
               else t.reader.Returned? && (|t.log| - 1 <= after || Delivered(t, |t.log| - 1))
  {
    hide Apply, Delivered;
    RunTellsTheTruth(steps, after);
    more := ToTheExit(Run(steps, after), after);
    RunThen(steps, more, after);
    StaysPlain(steps, more);
    if !Early(Run(steps, after).reader) {
      LeavingDeliversTheLast(steps + more, after);
    }
  }

  // ---------- What was handed out is yielded ----------

  /** What was yielded and what waits to be. */
  function Output(s: State): seq<string> { s.yielded + Texts(Waiting(s.reader)) }

  lemma OutputGrowsInStep(s: State, step: Step, after: int)
    ensures Output(s) <= Output(Apply(s, step, after))
  {
    hide Buffer.WrapSseChunk, CursorFromChunk, After, Highest, Trim;
    if step == Yield && Waiting(s.reader) != [] {
      YieldKeepsOutput(s, after);
    }
  }

  lemma YieldKeepsOutput(s: State, after: int)
    requires Waiting(s.reader) != []
    ensures Output(Apply(s, Yield, after)) == Output(s)
  {
    hide Apply;
    YieldOne(s, after);
    var rest := Waiting(s.reader);
    assert Texts(rest) == [rest[0].text] + Texts(rest[1..]);
    assert s.yielded + [rest[0].text] + Texts(rest[1..]) == s.yielded + ([rest[0].text] + Texts(rest[1..]));
  }

  /** Nothing yielded is taken back, and nothing that was to be yielded is lost. */
  lemma {:induction false} OutputGrows(steps: seq<Step>, n: nat, after: int)
    requires n <= |steps|
    ensures Output(Run(steps[..n], after)) <= Output(Run(steps, after))
    decreases |steps|
  {
    hide Apply, Output;
    if n < |steps| {
      var init := steps[..|steps| - 1];
      assert init[..n] == steps[..n];
      OutputGrows(init, n, after);
      OutputGrowsInStep(Run(init, after), steps[|steps| - 1], after);
    } else {
      assert steps[..n] == steps;
    }
  }

  /** The first chunk after `cursor` that the list still holds. */
  function FirstAfter(log: seq<string>, cursor: int): nat {
    var oldest := if |log| > Buffer.MAX_CHUNKS then |log| - Buffer.MAX_CHUNKS else 0;
    if cursor + 1 <= oldest then oldest else if cursor + 1 > |log| then |log| else cursor + 1
  }

  /** The chunks from `from` on, each under its own number. */
  function Numbered(log: seq<string>, from: nat): seq<string>
    requires from <= |log|
  {
    seq(|log| - from, k requires 0 <= k < |log| - from => Buffer.WrapSseChunk(from + k, log[from + k]))
  }

  lemma {:induction false} AfterIsSuffix(entries: seq<Entry>, cursor: int, base: nat)
    requires forall k | 0 <= k < |entries| :: entries[k].id == base + k
    ensures var skip := if cursor + 1 <= base then 0
                        else if cursor + 1 >= base + |entries| then |entries| else cursor + 1 - base;
            After(entries, cursor) == entries[skip..]
  {
    if entries != [] {
      AfterIsSuffix(entries[1..], cursor, base + 1);
    }
  }

  lemma EntriesAreNumbered(entries: seq<Entry>, log: seq<string>, skip: nat)
    requires EntriesAreTail(entries, log) && skip <= |entries|
    ensures |entries| <= |log| && Texts(entries[skip..]) == Numbered(log, |log| - |entries| + skip)
  {
    hide Buffer.WrapSseChunk;
    var read, from := entries[skip..], |log| - |entries| + skip;
    forall k | 0 <= k < |read|
      ensures read[k].text == Buffer.WrapSseChunk(from + k, log[from + k])
    {
      assert Genuine(entries[skip + k], log);
    }
  }

  lemma ReadIsNumbered(entries: seq<Entry>, log: seq<string>, cursor: int)
    requires EntriesAreTail(entries, log)
    ensures FirstAfter(log, cursor) <= |log|
    ensures Texts(After(entries, cursor)) == Numbered(log, FirstAfter(log, cursor))
  {
    hide Genuine, Texts, Numbered;
    var base := |log| - |entries|;
    AfterIsSuffix(entries, cursor, base);
    EntriesAreNumbered(entries, log, FirstAfter(log, cursor) - base);
  }

  /** Once the replay is over it has all been yielded, and first. */
  predicate ReplayFirst(s: State, replay: seq<string>) {
    if s.reader.Replaying? then Output(s) == replay else !s.reader.Fresh? && replay <= s.yielded
  }

  lemma ReplayFirstStep(s: State, step: Step, replay: seq<string>, after: int)
    requires ReplayFirst(s, replay)
    ensures ReplayFirst(Apply(s, step, after), replay)
  {
    hide Buffer.WrapSseChunk, CursorFromChunk, After, Highest, Trim;
    if step == Yield && Waiting(s.reader) != [] {
      YieldKeepsOutput(s, after);
    } else if s.reader.Replaying? && s.reader.rest == [] {
      assert s.yielded + Texts([]) == s.yielded;
    }
  }

  lemma {:induction false} ReplayFirstRun(steps: seq<Step>, n: nat, replay: seq<string>, after: int)
    requires n <= |steps| && ReplayFirst(Run(steps[..n], after), replay)
    ensures ReplayFirst(Run(steps, after), replay)
    decreases |steps|
  {
    hide Apply, ReplayFirst;
    if n < |steps| {
      var init := steps[..|steps| - 1];
      assert init[..n] == steps[..n];
      ReplayFirstRun(init, n, replay, after);
      ReplayFirstStep(Run(init, after), steps[|steps| - 1], replay, after);
    } else {
      assert steps[..n] == steps;
    }
  }

  lemma ReplayHandsOut(s: State, after: int)
    requires Inv(s, after) && s.reader.Fresh? && s.seen == []
    ensures FirstAfter(s.log, after) <= |s.log|
    ensures ReplayFirst(Apply(s, Replay, after), Numbered(s.log, FirstAfter(s.log, after)))
  {
    hide Buffer.WrapSseChunk, After, Highest, EntriesAreTail, Numbered;
    ReadIsNumbered(s.entries, s.log, after);
    assert s.yielded == [];
    assert [] + Texts(After(s.entries, after)) == Texts(After(s.entries, after));
  }

  /**
   In every run a subscriber past its replay has first yielded every chunk after `after` that the
   list held when the replay was read, each under its own number, in order and without a gap.
   */
  lemma ReplayIsYielded(steps: seq<Step>, after: int) returns (n: nat)
    requires PlainChunks(steps) && -1 <= after && !Run(steps, after).reader.Fresh?
    ensures n < |steps| && steps[n] == Replay && Run(steps[..n], after).reader.Fresh?
    ensures var log := Run(steps[..n], after).log;
            FirstAfter(log, after) <= |log| && ReplayFirst(Run(steps, after), Numbered(log, FirstAfter(log, after)))
  {
    hide Apply, Inv, ReplayFirst, Numbered;
    n := StartedByReplay(steps, after);
    var before := Run(steps[..n], after);
    assert steps[..n + 1] == steps[..n] + [Replay];
    RunSnoc(steps[..n], Replay, after);
    assert forall raw :: Reserve(raw) in steps[..n] ==> Reserve(raw) in steps;
    RunKeeps(steps[..n], after);
    NothingSeenYet(steps[..n], after);
    ReplayHandsOut(before, after);
    ReplayFirstRun(steps, n + 1, Numbered(before.log, FirstAfter(before.log, after)), after);
  }

  lemma TailHandsOut(s: State, after: int)
    requires Inv(s, after) && s.reader.Tailing?
    ensures FirstAfter(s.log, s.reader.cursor) <= |s.log|
    ensures Output(Apply(s, ReadTail, after)) == Output(s) + Numbered(s.log, FirstAfter(s.log, s.reader.cursor))
  {
    hide Buffer.WrapSseChunk, After, Highest, EntriesAreTail, Numbered;
    ReadIsNumbered(s.entries, s.log, s.reader.cursor);
    assert s.yielded + Texts([]) == s.yielded;
  }

  /** A list read in the loop hands out every chunk after the cursor that the list holds, in order. */
  lemma EveryReadIsWhole(steps: seq<Step>, after: int)
    requires PlainChunks(steps) && -1 <= after && Run(steps, after).reader.Tailing?
    ensures var s := Run(steps, after);
            && FirstAfter(s.log, s.reader.cursor) <= |s.log|
            && Output(Run(steps + [ReadTail], after)) == Output(s) + Numbered(s.log, FirstAfter(s.log, s.reader.cursor))
  {
    hide Apply, Output, Numbered;
    RunKeeps(steps, after);
    TailHandsOut(Run(steps, after), after);
    RunSnoc(steps, ReadTail, after);
  }

  // ---------- Live chunks arrive ----------

  function Messages(inbox: seq<Published>): seq<string> {
    seq(|inbox|, k requires 0 <= k < |inbox| => inbox[k].text)
  }

  function Receives(n: nat): seq<Step> { seq(n, _ => Receive) }

  lemma ReceiveOne(s: State, after: int)
    requires TellsTheTruth(s) && !s.writer.Closed? && s.reader.Head? && s.inbox != []
    ensures var t := Apply(s, Receive, after);
            t.reader.Head? && t.inbox == s.inbox[1..] && t.yielded == s.yielded + [s.inbox[0].text]
  {
    hide CursorFromChunk;
    assert s.inbox[0] in s.inbox;
  }

  lemma {:induction false} ReceivesDeliver(s: State, after: int)
    requires TellsTheTruth(s) && !s.writer.Closed? && s.reader.Head?
    ensures var t := Then(s, Receives(|s.inbox|), after);
            t.reader.Head? && t.inbox == [] && t.yielded == s.yielded + Messages(s.inbox)
    decreases |s.inbox|
  {
    hide Apply, TellsTheTruth;
    if s.inbox == [] {
      assert Receives(0) == [] && s.yielded + Messages([]) == s.yielded;
    } else {
      var t, n := Apply(s, Receive, after), |s.inbox|;
      ReceiveOne(s, after);
      StepTellsTheTruth(s, Receive, after);
      ReaderKeepsServer(s, Receive, after);
      ReceivesDeliver(t, after);
      assert Receives(n) == [Receive] + Receives(n - 1);
      ThenOne(s, Receive, after);
      ThenConcat(s, [Receive], Receives(n - 1), after);
      assert Messages(s.inbox) == [s.inbox[0].text] + Messages(s.inbox[1..]);
      assert s.yielded + [s.inbox[0].text] + Messages(s.inbox[1..]) == s.yielded + Messages(s.inbox);
    }
  }

  /** A reader in the live loop is connected. */
  predicate ConnectedInLoop(s: State) {
    s.reader.Head? || s.reader.Polling? || s.reader.Tailing? || s.reader.Catching? || s.reader.Leaving? ==> s.connected
  }

  lemma {:induction false} RunIsConnected(steps: seq<Step>, after: int)
    ensures ConnectedInLoop(Run(steps, after))
  {
    hide Apply;
    if steps != [] {
      RunIsConnected(steps[..|steps| - 1], after);
      StepIsConnected(Run(steps[..|steps| - 1], after), steps[|steps| - 1], after);
    }
  }

  lemma StepIsConnected(s: State, step: Step, after: int)
    requires ConnectedInLoop(s)
    ensures ConnectedInLoop(Apply(s, step, after))
  {
    hide Buffer.WrapSseChunk, CursorFromChunk, After, Highest, Trim;
  }

  lemma CommitPublishes(s: State, after: int)
    requires s.writer.Reserved? && s.connected
    ensures var t := Apply(s, Commit, after);
            && t.reader == s.reader && t.yielded == s.yielded && t.writer.Ready?
            && Messages(t.inbox) == Messages(s.inbox) + [Buffer.WrapSseChunk(s.writer.id, s.writer.raw)]
            && |t.inbox| == |s.inbox| + 1
  {
    hide Buffer.WrapSseChunk, Trim;
  }

  /**
   In every run a chunk committed while the subscriber is at the head of the live loop is yielded
   by reading the messages, behind those that came before it, in order.
   */
  lemma LiveChunkArrives(steps: seq<Step>, after: int)
    requires Run(steps, after).reader.Head? && Run(steps, after).writer.Reserved?
    ensures var s := Run(steps, after);
            var t := Run(steps + [Commit] + Receives(|s.inbox| + 1), after);
            && t.reader.Head?
            && t.yielded == s.yielded + Messages(s.inbox) + [Buffer.WrapSseChunk(s.writer.id, s.writer.raw)]
  {
    hide Apply, Buffer.WrapSseChunk, Messages;
    var s := Run(steps, after);
    RunIsConnected(steps, after);
    CommitPublishes(s, after);
    RunSnoc(steps, Commit, after);
    RunTellsTheTruth(steps + [Commit], after);
    var t := Run(steps + [Commit], after);
    ReceivesDeliver(t, after);
    RunThen(steps + [Commit], Receives(|s.inbox| + 1), after);
    assert s.yielded + (Messages(s.inbox) + [Buffer.WrapSseChunk(s.writer.id, s.writer.raw)]) ==
           s.yielded + Messages(s.inbox) + [Buffer.WrapSseChunk(s.writer.id, s.writer.raw)];
  }
}
