/**
 The in-process buffer of a detached run: one producer numbers chunks, keeps a bounded
 suffix and feeds any number of subscribers, each with a replay and a bounded live queue.

 The buffer is a step system. A step is a stretch of code between two points at which
 another coroutine may run; every order of steps is a run.
 */
module RunBuffer {
  import opened PyText

  const MAX_CHUNKS: nat := 12_000

  /** `_wrap_sse_chunk`. */
  function WrapSseChunk(n: nat, raw: string): string {
    if StartsWith(raw, "id: ") then raw else "id: " + Dec(n) + "\n" + raw
  }

  lemma FirstLineOfWrapped(n: nat, raw: string)
    requires !StartsWith(raw, "id: ")
    ensures FirstLine(WrapSseChunk(n, raw)) == "id: " + Dec(n)
  {
    var line := "id: " + Dec(n);
    DecDigits(n);
    forall c | c in line
      ensures c != '\n'
    {
      assert c in "id: " || c in Dec(n);
    }
    FirstLineOf(line, raw);
    assert WrapSseChunk(n, raw) == line + "\n" + raw;
  }

  /** Chunks without an id of their own differ when their numbers do. */
  lemma WrappedDiffer(n: nat, a: string, m: nat, b: string)
    requires n != m && !StartsWith(a, "id: ") && !StartsWith(b, "id: ")
    ensures WrapSseChunk(n, a) != WrapSseChunk(m, b)
  {
    hide WrapSseChunk, Dec;
    FirstLineOfWrapped(n, a);
    FirstLineOfWrapped(m, b);
    DecValue(n);
    DecValue(m);
    assert ("id: " + Dec(n))[4..] == Dec(n) && ("id: " + Dec(m))[4..] == Dec(m);
  }

  datatype Chunk = Chunk(id: nat, text: string)

  datatype Item = Data(text: string) | Sentinel

  /** Where a subscriber's generator stands. */
  datatype Phase =
    | Replaying(rest: seq<string>, runDone: bool)
    | Live
    | Ended(complete: bool)

  /** `start` and `yielded` record what the subscriber saw; the rest is the generator's own state. */
  datatype Subscriber = Subscriber(start: nat, queue: seq<Item>, phase: Phase, yielded: seq<string>)

  /** Where the one producer stands inside `append` or `finish`. */
  datatype Producer =
    | Idle
    | Pushing(text: string, todo: seq<nat>, slow: seq<nat>)
    | Finishing(todo: seq<nat>)

  /** `log` records every accepted chunk; the rest is the buffer's own state. */
  datatype State = State(
    log: seq<string>,
    chunks: seq<Chunk>,
    nextSeq: nat,
    done: bool,
    subscribers: seq<nat>,
    producer: Producer,
    subs: seq<Subscriber>)

  const INIT := State([], [], 0, false, [], Idle, [])

  datatype Step =
    | Append(raw: string)
    | PushNext
    | DropSlow
    | Finish
    | PutSentinel
    | Subscribe(after: int)
    | YieldReplay(who: nat)
    | Get(who: nat)
    | Close(who: nat)

  // ---------- Lists of subscribers ----------

  predicate Distinct(xs: seq<nat>) {
    forall i, j | 0 <= i < j < |xs| :: xs[i] != xs[j]
  }

  /** `list.remove`, doing nothing when the element is absent. */
  function Remove(xs: seq<nat>, x: nat): seq<nat> {
    if xs == [] then []
    else if xs[0] == x then xs[1..]
    else [xs[0]] + Remove(xs[1..], x)
  }

  function RemoveAll(xs: seq<nat>, ys: seq<nat>): seq<nat>
    decreases |ys|
  {
    if ys == [] then xs else RemoveAll(Remove(xs, ys[0]), ys[1..])
  }

  lemma DistinctTail(xs: seq<nat>)
    requires Distinct(xs) && xs != []
    ensures Distinct(xs[1..]) && xs[0] !in xs[1..]
    ensures forall y :: y in xs <==> y == xs[0] || y in xs[1..]
  {
    assert xs == [xs[0]] + xs[1..];
  }

  lemma {:induction false} RemoveFrom(xs: seq<nat>, x: nat)
    requires Distinct(xs)
    ensures Distinct(Remove(xs, x))
    ensures forall y :: y in Remove(xs, x) <==> y in xs && y != x
  {
    if xs != [] {
      DistinctTail(xs);
      RemoveFrom(xs[1..], x);
    }
  }

  lemma {:induction false} RemoveAllFrom(xs: seq<nat>, ys: seq<nat>)
    requires Distinct(xs)
    ensures Distinct(RemoveAll(xs, ys))
    ensures forall y :: y in RemoveAll(xs, ys) <==> y in xs && y !in ys
    decreases |ys|
  {
    if ys != [] {
      RemoveFrom(xs, ys[0]);
      RemoveAllFrom(Remove(xs, ys[0]), ys[1..]);
      assert ys == [ys[0]] + ys[1..];
    }
  }

  // ---------- The steps ----------

  function Trim(chunks: seq<Chunk>): seq<Chunk> {
    if |chunks| > MAX_CHUNKS then chunks[1..] else chunks
  }

  function ReplayTexts(chunks: seq<Chunk>, after: int): seq<string> {
    if chunks == [] then []
    else (if chunks[0].id > after then [chunks[0].text] else []) + ReplayTexts(chunks[1..], after)
  }

  /** The oldest chunk still held, or the next one to come. */
  function OldestRetained(s: State): int {
    s.nextSeq - |s.chunks|
  }

  /** The first chunk a subscription from `after` is to see. */
  function StartFor(s: State, after: int): int {
    if after + 1 < OldestRetained(s) then OldestRetained(s)
    else if after + 1 > s.nextSeq then s.nextSeq
    else after + 1
  }

  function FinishingOrIdle(todo: seq<nat>): Producer {
    if todo == [] then Idle else Finishing(todo)
  }

  function Apply(s: State, step: Step, queueMax: nat): State {
    match step
    case Append(raw) => if !s.producer.Idle? || s.done then s else AppendTo(s, raw)
    case PushNext =>
      if !s.producer.Pushing? || s.producer.todo == [] || s.producer.todo[0] >= |s.subs| then s
      else PushTo(s, s.producer.todo[0], queueMax)
    case DropSlow =>
      if !s.producer.Pushing? || s.producer.todo != [] then s
      else s.(subscribers := RemoveAll(s.subscribers, s.producer.slow), producer := Idle)
    case Finish =>
      if !s.producer.Idle? then s
      else s.(done := true, subscribers := [], producer := FinishingOrIdle(s.subscribers))
    case PutSentinel =>
      if !s.producer.Finishing? || s.producer.todo == [] || s.producer.todo[0] >= |s.subs| then s
      else PutSentinelTo(s, s.producer.todo[0], queueMax)
    case Subscribe(after) => SubscribeFrom(s, after)
    case YieldReplay(i) =>
      if i < |s.subs| && s.subs[i].phase.Replaying? then YieldReplayOf(s, i) else s
    case Get(i) =>
      if i < |s.subs| && s.subs[i].phase.Live? && s.subs[i].queue != [] then GetFor(s, i) else s
    case Close(i) =>
      if i < |s.subs| && !s.subs[i].phase.Ended? then
        s.(subs := s.subs[i := s.subs[i].(phase := Ended(false))], subscribers := Remove(s.subscribers, i))
      else s
  }

  /** The locked part of `append`. */
  function AppendTo(s: State, raw: string): State {
    var text := WrapSseChunk(s.nextSeq, raw);
    s.(log := s.log + [raw],
       nextSeq := s.nextSeq + 1,
       chunks := Trim(s.chunks + [Chunk(s.nextSeq, text)]),
       producer := Pushing(text, s.subscribers, []))
  }

  /** The locked part of `subscribe`. */
  function SubscribeFrom(s: State, after: int): State {
    var start := StartFor(s, after);
    if start < 0 then s
    else
      var rest := ReplayTexts(s.chunks, after);
      s.(subs := s.subs + [Subscriber(start, [], Replaying(rest, s.done), [])],
         subscribers := if s.done then s.subscribers else s.subscribers + [|s.subs|])
  }

  /** `put_nowait`; a full queue takes neither the chunk nor the sentinel tried after it. */
  function PushTo(s: State, i: nat, queueMax: nat): State
    requires s.producer.Pushing? && s.producer.todo != [] && i < |s.subs|
  {
    var u := s.subs[i];
    if |u.queue| < queueMax then
      s.(subs := s.subs[i := u.(queue := u.queue + [Data(s.producer.text)])],
         producer := s.producer.(todo := s.producer.todo[1..]))
    else
      s.(producer := Pushing(s.producer.text, s.producer.todo[1..], s.producer.slow + [i]))
  }

  /** `put`, which waits for room. */
  function PutSentinelTo(s: State, i: nat, queueMax: nat): State
    requires s.producer.Finishing? && s.producer.todo != [] && i < |s.subs|
  {
    var u := s.subs[i];
    if |u.queue| < queueMax then
      s.(subs := s.subs[i := u.(queue := u.queue + [Sentinel])],
         producer := FinishingOrIdle(s.producer.todo[1..]))
    else s
  }

  function YieldReplayOf(s: State, i: nat): State
    requires i < |s.subs| && s.subs[i].phase.Replaying?
  {
    var u := s.subs[i];
    var Replaying(rest, runDone) := u.phase;
    if rest != [] then
      s.(subs := s.subs[i := u.(phase := Replaying(rest[1..], runDone), yielded := u.yielded + [rest[0]])])
    else if runDone then
      s.(subs := s.subs[i := u.(phase := Ended(true))], subscribers := Remove(s.subscribers, i))
    else
      s.(subs := s.subs[i := u.(phase := Live)])
  }

  function GetFor(s: State, i: nat): State
    requires i < |s.subs| && s.subs[i].queue != []
  {
    var u := s.subs[i];
    match u.queue[0]
    case Data(text) =>
      s.(subs := s.subs[i := u.(queue := u.queue[1..], yielded := u.yielded + [text])])
    case Sentinel =>
      s.(subs := s.subs[i := u.(queue := u.queue[1..], phase := Ended(true))],
         subscribers := Remove(s.subscribers, i))
  }

  /** The state after some steps; a step that is not enabled changes nothing. */
  function Run(s: State, steps: seq<Step>, queueMax: nat): State {
    if steps == [] then s
    else Apply(Run(s, steps[..|steps| - 1], queueMax), steps[|steps| - 1], queueMax)
  }

  // ---------- The invariant ----------

  /** `texts` are the chunks of `log` from `from` on, wrapped, without gap or repetition. */
  predicate IsRange(texts: seq<string>, log: seq<string>, from: nat) {
    && from + |texts| <= |log|
    && forall k | 0 <= k < |texts| :: texts[k] == WrapSseChunk(from + k, log[from + k])
  }

  function DataOf(queue: seq<Item>): seq<string> {
    if queue == [] then []
    else (if queue[0].Data? then [queue[0].text] else []) + DataOf(queue[1..])
  }

  /** What the subscriber has seen or still holds. */
  function Got(u: Subscriber): seq<string> {
    match u.phase
    case Replaying(rest, _) => u.yielded + rest + DataOf(u.queue)
    case Live => u.yielded + DataOf(u.queue)
    case Ended(_) => u.yielded
  }

  /** The chunk after the last one the subscriber has seen or holds. */
  function End(u: Subscriber): nat { u.start + |Got(u)| }

  predicate SentinelLast(queue: seq<Item>) {
    forall k | 0 <= k < |queue| - 1 :: queue[k].Data?
  }

  /** The buffer holds exactly the last chunks, each under its own number. */
  predicate RetainsSuffix(s: State) {
    && s.nextSeq == |s.log|
    && |s.chunks| == (if |s.log| < MAX_CHUNKS then |s.log| else MAX_CHUNKS)
    && forall k | 0 <= k < |s.chunks| ::
         var id := |s.log| - |s.chunks| + k;
         s.chunks[k] == Chunk(id, WrapSseChunk(id, s.log[id]))
  }

  predicate ListsOk(s: State) {
    && Distinct(s.subscribers)
    && (forall i | i in s.subscribers :: i < |s.subs|)
    && (s.done ==> s.subscribers == [] && !s.producer.Pushing?)
    && match s.producer
       case Idle => true
       case Pushing(text, todo, slow) =>
         && s.log != [] && text == WrapSseChunk(|s.log| - 1, s.log[|s.log| - 1])
         && Distinct(todo)
         && (forall i | i in todo :: i < |s.subs| && i !in slow)
       case Finishing(todo) =>
         s.done && todo != [] && Distinct(todo) && forall i | i in todo :: i < |s.subs|
  }

  predicate Awaits(s: State, i: nat) { s.producer.Pushing? && i in s.producer.todo }

  predicate FoundSlow(s: State, i: nat) { s.producer.Pushing? && i in s.producer.slow }

  predicate AwaitsSentinel(s: State, i: nat) { s.producer.Finishing? && i in s.producer.todo }

  predicate SubOk(s: State, i: nat, queueMax: nat)
    requires i < |s.subs|
  {
    var u := s.subs[i];
    && |u.queue| <= queueMax && SentinelLast(u.queue)
    && IsRange(Got(u), s.log, u.start)
    // A subscriber in the list is up to date, or owed the chunk being pushed.
    && (!u.phase.Ended? && i in s.subscribers && !FoundSlow(s, i) ==>
          End(u) + (if Awaits(s, i) then 1 else 0) == |s.log|)
    && (!u.phase.Ended? && Awaits(s, i) ==> i in s.subscribers)
    // The sentinel comes only once the run is done, and behind every chunk.
    && (Sentinel in u.queue ==> s.done)
    && (AwaitsSentinel(s, i) ==> Sentinel !in u.queue)
    && (!u.phase.Ended? && (Sentinel in u.queue || AwaitsSentinel(s, i)) ==> End(u) == |s.log|)
    && (u.phase.Replaying? && u.phase.runDone ==>
          s.done && u.queue == [] && End(u) == |s.log| && !AwaitsSentinel(s, i))
    && (u.phase.Ended? ==> i !in s.subscribers)
    && (u.phase.Ended? && u.phase.complete ==> s.done && End(u) == |s.log|)
  }

  ghost predicate Inv(s: State, queueMax: nat) {
    RetainsSuffix(s) && ListsOk(s) && forall i: nat | i < |s.subs| :: SubOk(s, i, queueMax)
  }

  // ---------- Every step keeps it ----------

  lemma {:induction false} DataOfSnoc(queue: seq<Item>, item: Item)
    ensures DataOf(queue + [item]) == DataOf(queue) + if item.Data? then [item.text] else []
  {
    if queue == [] {
      assert (queue + [item])[1..] == [];
      assert (queue + [item])[0] == item;
    } else {
      assert (queue + [item])[1..] == queue[1..] + [item];
      DataOfSnoc(queue[1..], item);
      var first := if queue[0].Data? then [queue[0].text] else [];
      var more := if item.Data? then [item.text] else [];
      assert first + (DataOf(queue[1..]) + more) == first + DataOf(queue[1..]) + more;
    }
  }

  /** What a step does not touch about a subscriber stays in order. */
  lemma Untouched(s: State, t: State, i: nat, queueMax: nat)
    requires i < |s.subs| && i < |t.subs| && SubOk(s, i, queueMax)
    requires t.subs[i] == s.subs[i] && t.log == s.log && t.done == s.done
    requires i in t.subscribers <==> i in s.subscribers
    requires Awaits(t, i) == Awaits(s, i) && FoundSlow(t, i) == FoundSlow(s, i)
    requires AwaitsSentinel(t, i) == AwaitsSentinel(s, i)
    ensures SubOk(t, i, queueMax)
  {
  }

  /** One subscriber moves on, or leaves the list as it does. */
  lemma OneSubChanges(s: State, who: nat, v: Subscriber, list: seq<nat>, queueMax: nat)
    requires Inv(s, queueMax) && who < |s.subs|
    requires list == s.subscribers || list == Remove(s.subscribers, who)
    requires var t := s.(subs := s.subs[who := v], subscribers := list); SubOk(t, who, queueMax)
    ensures Inv(s.(subs := s.subs[who := v], subscribers := list), queueMax)
  {
    hide WrapSseChunk, IsRange, Got;
    var t := s.(subs := s.subs[who := v], subscribers := list);
    RemoveFrom(s.subscribers, who);
    assert ListsOk(t);
    forall i: nat | i < |t.subs| && i != who
      ensures SubOk(t, i, queueMax)
    {
      assert SubOk(s, i, queueMax);
      Untouched(s, t, i, queueMax);
    }
  }

  lemma AppendKeepsBuffer(s: State, raw: string)
    requires RetainsSuffix(s)
    ensures RetainsSuffix(AppendTo(s, raw))
  {
  }

  lemma AppendKeepsSub(s: State, raw: string, i: nat, queueMax: nat)
    requires ListsOk(s) && !s.done && s.producer.Idle? && i < |s.subs| && SubOk(s, i, queueMax)
    ensures i < |AppendTo(s, raw).subs| && SubOk(AppendTo(s, raw), i, queueMax)
  {
  }

  lemma AppendKeeps(s: State, raw: string, queueMax: nat)
    requires Inv(s, queueMax) && s.producer.Idle? && !s.done
    ensures Inv(AppendTo(s, raw), queueMax)
  {
    var t := AppendTo(s, raw);
    AppendKeepsBuffer(s, raw);
    assert ListsOk(t);
    forall i: nat | i < |t.subs|
      ensures SubOk(t, i, queueMax)
    {
      assert SubOk(s, i, queueMax);
      AppendKeepsSub(s, raw, i, queueMax);
    }
  }

  lemma PushNextKeeps(s: State, queueMax: nat)
    requires Inv(s, queueMax)
    ensures Inv(Apply(s, PushNext, queueMax), queueMax)
  {
    hide WrapSseChunk;
    var t := Apply(s, PushNext, queueMax);
    if s.producer.Pushing? && s.producer.todo != [] {
      var q := s.producer.todo[0];
      DistinctTail(s.producer.todo);
      assert SubOk(s, q, queueMax);
      PushReceived(s, queueMax);
      forall i: nat | i < |t.subs| && i != q
        ensures SubOk(t, i, queueMax)
      {
        assert SubOk(s, i, queueMax);
        Untouched(s, t, i, queueMax);
      }
    }
  }

  lemma PushReceived(s: State, queueMax: nat)
    requires ListsOk(s) && s.producer.Pushing? && s.producer.todo != []
    requires s.producer.todo[0] < |s.subs| && SubOk(s, s.producer.todo[0], queueMax)
    ensures var q := s.producer.todo[0];
            q < |PushTo(s, q, queueMax).subs| && SubOk(PushTo(s, q, queueMax), q, queueMax)
  {
    var q := s.producer.todo[0];
    DistinctTail(s.producer.todo);
    if |s.subs[q].queue| < queueMax {
      PushFits(s, q, queueMax);
    }
  }

  lemma RangeSnoc(texts: seq<string>, log: seq<string>, from: nat, text: string)
    requires IsRange(texts, log, from) && from + |texts| < |log|
    requires text == WrapSseChunk(from + |texts|, log[from + |texts|])
    ensures IsRange(texts + [text], log, from)
  {
  }

  lemma GotSnoc(u: Subscriber, text: string)
    requires !u.phase.Ended?
    ensures Got(u.(queue := u.queue + [Data(text)])) == Got(u) + [text]
  {
    DataOfSnoc(u.queue, Data(text));
    var data := DataOf(u.queue);
    match u.phase
    case Replaying(rest, _) => assert u.yielded + rest + (data + [text]) == u.yielded + rest + data + [text];
    case Live => assert u.yielded + (data + [text]) == u.yielded + data + [text];
  }

  lemma PushedGot(u: Subscriber, text: string, log: seq<string>)
    requires log != [] && text == WrapSseChunk(|log| - 1, log[|log| - 1])
    requires IsRange(Got(u), log, u.start) && !u.phase.Ended? && End(u) + 1 == |log|
    ensures var v := u.(queue := u.queue + [Data(text)]);
            IsRange(Got(v), log, v.start) && End(v) == |log|
  {
    GotSnoc(u, text);
    RangeSnoc(Got(u), log, u.start, text);
  }

  lemma PushFits(s: State, q: nat, queueMax: nat)
    requires ListsOk(s) && s.producer.Pushing? && s.producer.todo != [] && s.producer.todo[0] == q
    requires q !in s.producer.todo[1..]
    requires q < |s.subs| && SubOk(s, q, queueMax) && |s.subs[q].queue| < queueMax
    ensures q < |PushTo(s, q, queueMax).subs| && SubOk(PushTo(s, q, queueMax), q, queueMax)
  {
    var u, text := s.subs[q], s.producer.text;
    assert Awaits(s, q) && !FoundSlow(s, q) && Sentinel !in u.queue;
    var v, t := u.(queue := u.queue + [Data(text)]), PushTo(s, q, queueMax);
    if !u.phase.Ended? {
      PushedGot(u, text, s.log);
    }
    PushedOk(s, t, q, queueMax);
  }

  lemma PushedOk(s: State, t: State, q: nat, queueMax: nat)
    requires q < |s.subs| && SubOk(s, q, queueMax) && |s.subs[q].queue| < queueMax
    requires Awaits(s, q) && !FoundSlow(s, q) && Sentinel !in s.subs[q].queue
    requires q < |t.subs| && t.log == s.log && t.done == s.done && t.subscribers == s.subscribers
    requires t.producer.Pushing? && !Awaits(t, q)
    requires t.subs[q] == s.subs[q].(queue := s.subs[q].queue + [Data(s.producer.text)])
    requires !t.subs[q].phase.Ended? ==> IsRange(Got(t.subs[q]), t.log, t.subs[q].start) && End(t.subs[q]) == |t.log|
    ensures SubOk(t, q, queueMax)
  {
    assert Sentinel !in t.subs[q].queue && SentinelLast(t.subs[q].queue);
  }

  lemma DropSlowKeeps(s: State, queueMax: nat)
    requires Inv(s, queueMax)
    ensures Inv(Apply(s, DropSlow, queueMax), queueMax)
  {
    var t := Apply(s, DropSlow, queueMax);
    if s.producer.Pushing? {
      RemoveAllFrom(s.subscribers, s.producer.slow);
    }
    forall i: nat | i < |t.subs|
      ensures SubOk(t, i, queueMax)
    {
      assert SubOk(s, i, queueMax);
    }
  }

  lemma FinishKeeps(s: State, queueMax: nat)
    requires Inv(s, queueMax)
    ensures Inv(Apply(s, Finish, queueMax), queueMax)
  {
    var t := Apply(s, Finish, queueMax);
    forall i: nat | i < |t.subs|
      ensures SubOk(t, i, queueMax)
    {
      assert SubOk(s, i, queueMax);
    }
  }

  lemma PutSentinelKeeps(s: State, queueMax: nat)
    requires Inv(s, queueMax)
    ensures Inv(Apply(s, PutSentinel, queueMax), queueMax)
  {
    var t := Apply(s, PutSentinel, queueMax);
    if t != s {
      var q := s.producer.todo[0];
      DistinctTail(s.producer.todo);
      assert SubOk(s, q, queueMax);
      SentinelReceived(s, queueMax);
      forall i: nat | i < |t.subs| && i != q
        ensures SubOk(t, i, queueMax)
      {
        assert SubOk(s, i, queueMax);
        Untouched(s, t, i, queueMax);
      }
    }
  }

  lemma SentinelReceived(s: State, queueMax: nat)
    requires ListsOk(s) && s.producer.Finishing? && s.producer.todo != []
    requires s.producer.todo[0] < |s.subs| && SubOk(s, s.producer.todo[0], queueMax)
    ensures var q := s.producer.todo[0];
            q < |PutSentinelTo(s, q, queueMax).subs| && SubOk(PutSentinelTo(s, q, queueMax), q, queueMax)
  {
    hide WrapSseChunk, IsRange, RetainsSuffix, DataOf;
    var q := s.producer.todo[0];
    DistinctTail(s.producer.todo);
    var u := s.subs[q];
    if |u.queue| < queueMax {
      DataOfSnoc(u.queue, Sentinel);
      var v := PutSentinelTo(s, q, queueMax).subs[q];
      assert DataOf(v.queue) == DataOf(u.queue);
      assert Got(v) == Got(u);
      forall k | 0 <= k < |u.queue|
        ensures u.queue[k].Data?
      {
        assert u.queue[k] in u.queue;
      }
    }
  }

  /** A replay is the run of retained chunks from `StartFor` to the newest. */
  lemma {:induction false} ReplayTextsSuffix(chunks: seq<Chunk>, after: int, base: nat)
    requires forall k | 0 <= k < |chunks| :: chunks[k].id == base + k
    ensures var skip := if after + 1 <= base then 0
                        else if after + 1 >= base + |chunks| then |chunks| else after + 1 - base;
            var texts := ReplayTexts(chunks, after);
            |texts| == |chunks| - skip &&
            forall k | 0 <= k < |texts| :: texts[k] == chunks[skip + k].text
  {
    if chunks != [] {
      ReplayTextsSuffix(chunks[1..], after, base + 1);
    }
  }

  lemma ReplayIsRange(s: State, after: int)
    requires RetainsSuffix(s)
    ensures 0 <= StartFor(s, after)
    ensures IsRange(ReplayTexts(s.chunks, after), s.log, StartFor(s, after))
    ensures StartFor(s, after) + |ReplayTexts(s.chunks, after)| == |s.log|
  {
    hide WrapSseChunk;
    var base := |s.log| - |s.chunks|;
    ReplayTextsSuffix(s.chunks, after, base);
    var skip, texts := StartFor(s, after) - base, ReplayTexts(s.chunks, after);
    forall k | 0 <= k < |texts|
      ensures texts[k] == WrapSseChunk(base + skip + k, s.log[base + skip + k])
    {
      assert s.chunks[skip + k] == Chunk(base + skip + k, WrapSseChunk(base + skip + k, s.log[base + skip + k]));
    }
  }

  lemma SubscribeKeeps(s: State, after: int, queueMax: nat)
    requires Inv(s, queueMax)
    ensures Inv(SubscribeFrom(s, after), queueMax)
  {
    hide WrapSseChunk, ReplayTexts, StartFor, IsRange, Got;
    var t := SubscribeFrom(s, after);
    NewcomerOk(s, after, queueMax);
    assert |s.subs| !in s.subscribers;
    assert ListsOk(t);
    forall i: nat | i < |s.subs|
      ensures SubOk(t, i, queueMax)
    {
      assert SubOk(s, i, queueMax);
      Untouched(s, t, i, queueMax);
    }
  }

  /** What `subscribe` adds, spelled out. */
  lemma SubscribeAdds(s: State, after: int)
    requires RetainsSuffix(s)
    ensures 0 <= StartFor(s, after)
    ensures SubscribeFrom(s, after) ==
            s.(subs := s.subs + [Subscriber(StartFor(s, after), [], Replaying(ReplayTexts(s.chunks, after), s.done), [])],
               subscribers := if s.done then s.subscribers else s.subscribers + [|s.subs|])
  {
    hide WrapSseChunk, ReplayTexts;
  }

  lemma NewcomerOk(s: State, after: int, queueMax: nat)
    requires RetainsSuffix(s) && ListsOk(s)
    ensures |SubscribeFrom(s, after).subs| == |s.subs| + 1 && SubOk(SubscribeFrom(s, after), |s.subs|, queueMax)
  {
    hide WrapSseChunk, ReplayTexts, SubscribeFrom, RetainsSuffix, StartFor, SubOk, Distinct;
    ReplayIsRange(s, after);
    SubscribeAdds(s, after);
    var t, texts := SubscribeFrom(s, after), ReplayTexts(s.chunks, after);
    var u := Subscriber(StartFor(s, after), [], Replaying(texts, s.done), []);
    NothingGotYet(u, texts, s.done);
    NewcomerIn(t, u, |s.subs|, queueMax);
  }

  lemma NothingGotYet(u: Subscriber, texts: seq<string>, runDone: bool)
    requires u.yielded == [] && u.queue == [] && u.phase == Replaying(texts, runDone)
    ensures Got(u) == texts
  {
  }

  lemma NewcomerIn(t: State, u: Subscriber, i: nat, queueMax: nat)
    requires i < |t.subs| && t.subs[i] == u && u.queue == [] && u.phase == Replaying(Got(u), t.done)
    requires IsRange(Got(u), t.log, u.start) && End(u) == |t.log|
    requires !Awaits(t, i) && !AwaitsSentinel(t, i) && (t.done ==> i !in t.subscribers)
    ensures SubOk(t, i, queueMax)
  {
  }

  lemma YieldReplayKeeps(s: State, who: nat, queueMax: nat)
    requires Inv(s, queueMax) && who < |s.subs| && s.subs[who].phase.Replaying?
    ensures Inv(YieldReplayOf(s, who), queueMax)
  {
    var t := YieldReplayOf(s, who);
    assert SubOk(s, who, queueMax);
    YielderOk(s, who, queueMax);
    assert t == s.(subs := s.subs[who := t.subs[who]], subscribers := t.subscribers);
    OneSubChanges(s, who, t.subs[who], t.subscribers, queueMax);
  }

  lemma YielderOk(s: State, i: nat, queueMax: nat)
    requires ListsOk(s) && i < |s.subs| && s.subs[i].phase.Replaying? && SubOk(s, i, queueMax)
    ensures i < |YieldReplayOf(s, i).subs| && SubOk(YieldReplayOf(s, i), i, queueMax)
  {
    YieldKeepsGot(s, i);
    RemoveFrom(s.subscribers, i);
    var t := YieldReplayOf(s, i);
    assert t.subs[i].queue == s.subs[i].queue && Got(t.subs[i]) == Got(s.subs[i]);
  }

  lemma YieldKeepsGot(s: State, i: nat)
    requires i < |s.subs| && s.subs[i].phase.Replaying?
    requires s.subs[i].phase.runDone ==> s.subs[i].queue == []
    ensures Got(YieldReplayOf(s, i).subs[i]) == Got(s.subs[i])
  {
    var u, v := s.subs[i], YieldReplayOf(s, i).subs[i];
    var rest := u.phase.rest;
    if rest != [] {
      assert v.yielded + rest[1..] == u.yielded + rest;
    } else {
      assert u.yielded + rest == u.yielded;
    }
  }

  lemma GetKeeps(s: State, who: nat, queueMax: nat)
    requires Inv(s, queueMax) && who < |s.subs| && s.subs[who].phase.Live? && s.subs[who].queue != []
    ensures Inv(GetFor(s, who), queueMax)
  {
    var t := GetFor(s, who);
    assert SubOk(s, who, queueMax);
    GetterOk(s, who, queueMax);
    assert t == s.(subs := s.subs[who := t.subs[who]], subscribers := t.subscribers);
    OneSubChanges(s, who, t.subs[who], t.subscribers, queueMax);
  }

  lemma GetterOk(s: State, i: nat, queueMax: nat)
    requires ListsOk(s) && i < |s.subs| && s.subs[i].phase.Live? && s.subs[i].queue != []
    requires SubOk(s, i, queueMax)
    ensures i < |GetFor(s, i).subs| && SubOk(GetFor(s, i), i, queueMax)
  {
    GetKeepsGot(s, i);
    RemoveFrom(s.subscribers, i);
    var t := GetFor(s, i);
    assert t.subs[i].queue == s.subs[i].queue[1..] && Got(t.subs[i]) == Got(s.subs[i]);
    assert Sentinel in t.subs[i].queue ==> Sentinel in s.subs[i].queue;
    if s.subs[i].queue[0] == Sentinel {
      assert Sentinel in s.subs[i].queue;
    }
  }

  lemma GetKeepsGot(s: State, i: nat)
    requires i < |s.subs| && s.subs[i].phase.Live? && s.subs[i].queue != []
    requires SentinelLast(s.subs[i].queue)
    ensures Got(GetFor(s, i).subs[i]) == Got(s.subs[i])
  {
    var u, v := s.subs[i], GetFor(s, i).subs[i];
    if u.queue[0].Data? {
      assert v.yielded + DataOf(v.queue) == u.yielded + ([u.queue[0].text] + DataOf(v.queue));
    } else {
      assert u.queue[1..] == [];
      assert u.yielded + DataOf(u.queue) == u.yielded;
    }
  }

  lemma CloseKeeps(s: State, who: nat, queueMax: nat)
    requires Inv(s, queueMax) && who < |s.subs| && !s.subs[who].phase.Ended?
    ensures Inv(Apply(s, Close(who), queueMax), queueMax)
  {
    assert SubOk(s, who, queueMax);
    var u, list := s.subs[who], Remove(s.subscribers, who);
    var v := u.(phase := Ended(false));
    YieldedPrefix(u);
    RemoveFrom(s.subscribers, who);
    assert SubOk(s.(subs := s.subs[who := v], subscribers := list), who, queueMax);
    OneSubChanges(s, who, v, list, queueMax);
  }

  lemma YieldedPrefix(u: Subscriber)
    ensures u.yielded <= Got(u)
    ensures forall k | 0 <= k < |u.yielded| :: u.yielded[k] == Got(u)[k]
  {
  }

  lemma StepKeepsInv(s: State, step: Step, queueMax: nat)
    requires Inv(s, queueMax)
    ensures Inv(Apply(s, step, queueMax), queueMax)
  {
    match step
    case Append(raw) =>
      if s.producer.Idle? && !s.done {
        AppendKeeps(s, raw, queueMax);
      }
    case PushNext => PushNextKeeps(s, queueMax);
    case DropSlow => DropSlowKeeps(s, queueMax);
    case Finish => FinishKeeps(s, queueMax);
    case PutSentinel => PutSentinelKeeps(s, queueMax);
    case Subscribe(after) => SubscribeKeeps(s, after, queueMax);
    case YieldReplay(i) =>
      if i < |s.subs| && s.subs[i].phase.Replaying? {
        YieldReplayKeeps(s, i, queueMax);
      }
    case Get(i) =>
      if i < |s.subs| && s.subs[i].phase.Live? && s.subs[i].queue != [] {
        GetKeeps(s, i, queueMax);
      }
    case Close(i) =>
      if i < |s.subs| && !s.subs[i].phase.Ended? {
        CloseKeeps(s, i, queueMax);
      }
  }

  lemma {:induction false} RunKeepsInv(s: State, steps: seq<Step>, queueMax: nat)
    requires Inv(s, queueMax)
    ensures Inv(Run(s, steps, queueMax), queueMax)
  {
    if steps != [] {
      RunKeepsInv(s, steps[..|steps| - 1], queueMax);
      StepKeepsInv(Run(s, steps[..|steps| - 1], queueMax), steps[|steps| - 1], queueMax);
    }
  }
}
