/**
 The Redis variant of the run buffer: a trimmed list, a counter, flags and a publish/subscribe
 channel, one producer, and one subscriber that replays, connects and then follows the channel.
 Every step of the subscriber is one round trip to the server or one yield; the producer, who
 alone writes, reads in the step in which it writes. Keys do not expire here.
 */
module RedisRunBuffer {
  import opened PyText
  import Buffer = RunBuffer

  const DONE_MESSAGE := "__koraku_detached_done__"

  datatype Entry = Entry(id: nat, text: string)

  /** A published text; `id` records which chunk it was, and the subscriber never reads it. */
  datatype Published = Published(text: string, id: int)

  datatype Writer = Ready | Reserved(id: nat, raw: string) | DoneSet | MetaSet | Closed

  datatype Reader =
    | Fresh
    | Replaying(rest: seq<Entry>, cursor: int)
    | Connecting(cursor: int)
    | Head(cursor: int)
    | Polling(cursor: int)
    | Tailing(runDone: bool, cursor: int)
    | Catching(rest: seq<Entry>, cursor: int)
    | Leaving(rest: seq<Entry>)
    | ReturnedEarly
    | Returned

  /** `log`, `seen` and `yielded` record the history; the rest is state. */
  datatype State = State(
    log: seq<string>,
    counter: nat,
    entries: seq<Entry>,
    metaDone: bool,
    writer: Writer,
    connected: bool,
    inbox: seq<Published>,
    reader: Reader,
    seen: seq<nat>,
    yielded: seq<string>)

  const INIT := State([], 0, [], false, Ready, false, [], Fresh, [], [])

  datatype Step =
    | Reserve(raw: string)
    | Commit
    | SetDone
    | SetMeta
    | PublishDone
    | Replay
    | Yield
    | CheckMeta
    | Connect
    | Receive
    | TimeOut
    | ReadMeta
    | ReadTail

  // ---------- Cursor arithmetic ----------

  function MaxOf(a: int, b: int): int { if a > b then a else b }

  function RemovePrefix(s: string, prefix: string): string {
    if StartsWith(s, prefix) then s[|prefix|..] else s
  }

  /** `_cursor_from_chunk`. */
  function CursorFromChunk(payload: string, cursor: int): int {
    if !StartsWith(payload, "id: ") then cursor
    else
      match ParseInt(RemovePrefix(FirstLine(payload), "id: "))
      case Some(n) => MaxOf(cursor, n)
      case None => cursor
  }

  lemma WrappedFirstLine(n: nat, raw: string)
    requires !StartsWith(raw, "id: ")
    ensures StartsWith(Buffer.WrapSseChunk(n, raw), "id: ")
    ensures RemovePrefix(FirstLine(Buffer.WrapSseChunk(n, raw)), "id: ") == Dec(n)
  {
    var line := "id: " + Dec(n);
    Buffer.FirstLineOfWrapped(n, raw);
    assert line[..4] == "id: " && line[4..] == Dec(n);
    assert Buffer.WrapSseChunk(n, raw) == line + "\n" + raw;
    assert (line + "\n" + raw)[..4] == "id: ";
  }

  /** Reading the cursor from a chunk undoes the wrapping of a chunk without an id of its own. */
  lemma CursorOfWrapped(n: nat, raw: string, cursor: int)
    requires !StartsWith(raw, "id: ")
    ensures CursorFromChunk(Buffer.WrapSseChunk(n, raw), cursor) == MaxOf(cursor, n)
  {
    WrappedFirstLine(n, raw);
    ParseDec(n);
  }

  /** Exactly the chunks without an id of their own can be numbered so that the cursor follows. */
  lemma CursorInvertsWrapping(raw: string)
    ensures (forall n: nat, cursor: int ::
               CursorFromChunk(Buffer.WrapSseChunk(n, raw), cursor) == MaxOf(cursor, n))
            <==> !StartsWith(raw, "id: ")
  {
    if StartsWith(raw, "id: ") {
      assert Buffer.WrapSseChunk(0, raw) == raw == Buffer.WrapSseChunk(1, raw);
      assert MaxOf(-1, 0) != MaxOf(-1, 1);
    } else {
      forall n: nat, cursor: int
        ensures CursorFromChunk(Buffer.WrapSseChunk(n, raw), cursor) == MaxOf(cursor, n)
      {
        CursorOfWrapped(n, raw, cursor);
      }
    }
  }

  // ---------- The steps ----------

  /** The entries after `after`, as `_replay_after` collects them. */
  function After(entries: seq<Entry>, after: int): seq<Entry> {
    if entries == [] then []
    else (if entries[0].id > after then [entries[0]] else []) + After(entries[1..], after)
  }

  /** The largest of `cursor` and some ids. */
  function Highest(cursor: int, entries: seq<Entry>): int
    decreases |entries|
  {
    if entries == [] then cursor else Highest(MaxOf(cursor, entries[0].id), entries[1..])
  }

  /** `_replay_after` over the list read in one round trip: what to yield, and the cursor after it. */
  method ReplayAfter(entries: seq<Entry>, after: int) returns (out: seq<Entry>, cursor: int)
    ensures out == After(entries, after)
    ensures cursor == Highest(after, After(entries, after))
  {
    out, cursor := [], after;
    for i := 0 to |entries|
      invariant out + After(entries[i..], after) == After(entries, after)
      invariant Highest(cursor, After(entries[i..], after)) == Highest(after, After(entries, after))
    {
      var e := entries[i];
      AfterCons(entries, i, after, out, cursor);
      if e.id > after {
        out := out + [e];
        cursor := MaxOf(cursor, e.id);
      }
    }
    assert entries[|entries|..] == [] && out + [] == out;
  }

  /** One turn of the loop: the entry read is collected if it comes after `after`. */
  lemma AfterCons(entries: seq<Entry>, i: nat, after: int, out: seq<Entry>, cursor: int)
    requires i < |entries|
    ensures var e, all, rest := entries[i], After(entries[i..], after), After(entries[i + 1..], after);
            if e.id > after then
              out + all == out + [e] + rest && Highest(cursor, all) == Highest(MaxOf(cursor, e.id), rest)
            else all == rest
  {
    var e, all, rest := entries[i], After(entries[i..], after), After(entries[i + 1..], after);
    assert entries[i..][1..] == entries[i + 1..];
    if e.id > after {
      assert all == [e] + rest && all[1..] == rest;
      assert out + all == out + [e] + rest;
    } else {
      assert all == [] + rest;
    }
  }

  function HighestSeen(after: int, seen: seq<nat>): int {
    if seen == [] then after else MaxOf(HighestSeen(after, seen[..|seen| - 1]), seen[|seen| - 1])
  }

  function Trim(entries: seq<Entry>): seq<Entry> {
    if |entries| > Buffer.MAX_CHUNKS then entries[|entries| - Buffer.MAX_CHUNKS..] else entries
  }

  function Deliver(s: State, e: Entry, next: Reader): State {
    s.(reader := next, seen := s.seen + [e.id], yielded := s.yielded + [e.text])
  }

  /** One step of the subscription from `after`; a step that is not enabled changes nothing. */
  function Apply(s: State, step: Step, after: int): State {
    match step
    case Reserve(raw) =>
      if s.writer.Ready? then s.(writer := Reserved(s.counter, raw), counter := s.counter + 1) else s
    case Commit => if s.writer.Reserved? then CommitNext(s) else s
    case SetDone => if s.writer.Ready? then s.(writer := DoneSet) else s
    case SetMeta => if s.writer.DoneSet? then s.(metaDone := true, writer := MetaSet) else s
    case PublishDone =>
      if s.writer.MetaSet? then
        s.(inbox := if s.connected then s.inbox + [Published(DONE_MESSAGE, -1)] else s.inbox, writer := Closed)
      else s
    case Replay =>
      if s.reader.Fresh? then
        s.(reader := Replaying(After(s.entries, after), Highest(after, After(s.entries, after))))
      else s
    case Yield => YieldNext(s)
    case CheckMeta =>
      if s.reader.Replaying? && s.reader.rest == [] then
        s.(reader := if s.metaDone then ReturnedEarly else Connecting(s.reader.cursor))
      else s
    case Connect =>
      if s.reader.Connecting? then s.(connected := true, reader := Head(s.reader.cursor)) else s
    case Receive =>
      if s.reader.Head? && s.inbox != [] then ReceiveNext(s) else s
    case TimeOut =>
      if s.reader.Head? then s.(reader := Polling(s.reader.cursor)) else s
    case ReadMeta =>
      if s.reader.Polling? then s.(reader := Tailing(s.metaDone, s.reader.cursor)) else s
    case ReadTail =>
      if s.reader.Tailing? then TailNext(s) else s
  }

  function CommitNext(s: State): State
    requires s.writer.Reserved?
  {
    var Reserved(id, raw) := s.writer;
    var text := Buffer.WrapSseChunk(id, raw);
    s.(log := s.log + [raw],
       entries := Trim(s.entries + [Entry(id, text)]),
       inbox := if s.connected then s.inbox + [Published(text, id)] else s.inbox,
       writer := Ready)
  }

  function YieldNext(s: State): State {
    match s.reader
    case Replaying(rest, cursor) => if rest == [] then s else Deliver(s, rest[0], Replaying(rest[1..], cursor))
    case Catching(rest, cursor) =>
      if rest == [] then s.(reader := Head(cursor)) else Deliver(s, rest[0], Catching(rest[1..], cursor))
    case Leaving(rest) =>
      if rest == [] then s.(reader := Returned) else Deliver(s, rest[0], Leaving(rest[1..]))
    case _ => s
  }

  /** The list read after the cursor, on the way out of the loop or back to its head. */
  function TailNext(s: State): State
    requires s.reader.Tailing?
  {
    var tail := After(s.entries, s.reader.cursor);
    s.(reader := if s.reader.runDone then Leaving(tail) else Catching(tail, Highest(s.reader.cursor, tail)))
  }

  function ReceiveNext(s: State): State
    requires s.reader.Head? && s.inbox != []
  {
    var m := s.inbox[0];
    var popped := s.(inbox := s.inbox[1..]);
    if m.text == DONE_MESSAGE then
      popped.(reader := Tailing(true, s.reader.cursor))
    else
      popped.(reader := Head(CursorFromChunk(m.text, s.reader.cursor)),
              seen := s.seen + if m.id >= 0 then [m.id] else [],
              yielded := s.yielded + [m.text])
  }

  function Run(steps: seq<Step>, after: int): State {
    if steps == [] then INIT else Apply(Run(steps[..|steps| - 1], after), steps[|steps| - 1], after)
  }

  /** No chunk brings an id of its own. */
  ghost predicate PlainChunks(steps: seq<Step>) {
    forall raw :: Reserve(raw) in steps ==> !StartsWith(raw, "id: ")
  }

  // ---------- The invariant ----------

  /** An entry is a committed chunk under its own number. */
  predicate Genuine(e: Entry, log: seq<string>) {
    e.id < |log| && e.text == Buffer.WrapSseChunk(e.id, log[e.id])
  }

  predicate GenuineMessage(m: Published, log: seq<string>, closed: bool) {
    if m.id < 0 then closed && m.text == DONE_MESSAGE
    else m.id < |log| && m.text == Buffer.WrapSseChunk(m.id, log[m.id])
  }

  predicate Finished(w: Writer) { w.DoneSet? || w.MetaSet? || w.Closed? }

  /** The list holds exactly the last committed chunks, in order. */
  predicate EntriesAreTail(entries: seq<Entry>, log: seq<string>) {
    && |entries| == (if |log| < Buffer.MAX_CHUNKS then |log| else Buffer.MAX_CHUNKS)
    && forall k | 0 <= k < |entries| ::
         entries[k].id == |log| - |entries| + k && Genuine(entries[k], log)
  }

  predicate InboxGenuine(inbox: seq<Published>, log: seq<string>, closed: bool) {
    forall m | m in inbox :: GenuineMessage(m, log, closed)
  }

  predicate ServerOk(s: State) {
    && s.counter == |s.log| + (if s.writer.Reserved? then 1 else 0)
    && (s.writer.Reserved? ==> s.writer.id == |s.log| && !StartsWith(s.writer.raw, "id: "))
    && (forall raw | raw in s.log :: !StartsWith(raw, "id: "))
    && EntriesAreTail(s.entries, s.log)
    && (s.metaDone ==> Finished(s.writer))
    && InboxGenuine(s.inbox, s.log, s.writer.Closed?)
  }

  /** Entries waiting to be yielded before the reader leaves its present place. */
  function Waiting(r: Reader): seq<Entry> {
    match r
    case Replaying(rest, _) => rest
    case Catching(rest, _) => rest
    case Leaving(rest) => rest
    case _ => []
  }

  /** The cursor the reader holds, or will hold once what waits is yielded. */
  predicate CursorIs(r: Reader, c: int) {
    match r
    case Replaying(_, cursor) => cursor == c
    case Connecting(cursor) => cursor == c
    case Head(cursor) => cursor == c
    case Polling(cursor) => cursor == c
    case Tailing(_, cursor) => cursor == c
    case Catching(_, cursor) => cursor == c
    case _ => true
  }

  predicate AllGenuine(entries: seq<Entry>, log: seq<string>) {
    forall e | e in entries :: Genuine(e, log)
  }

  /** What was yielded, with the ids it was yielded under. */
  predicate SeenGenuine(seen: seq<nat>, yielded: seq<string>, log: seq<string>) {
    && |seen| == |yielded|
    && forall k | 0 <= k < |seen| :: Genuine(Entry(seen[k], yielded[k]), log)
  }

  predicate ReaderOk(s: State, after: int) {
    && SeenGenuine(s.seen, s.yielded, s.log)
    && AllGenuine(Waiting(s.reader), s.log)
    && (s.reader.Fresh? ==> s.seen == [])
    && CursorIs(s.reader, Highest(HighestSeen(after, s.seen), Waiting(s.reader)))
    && (s.reader.Tailing? && s.reader.runDone ==> Finished(s.writer))
    && (s.reader.Leaving? || s.reader.Returned? ==>
          Finished(s.writer) && |s.log| - 1 <= Highest(HighestSeen(after, s.seen), Waiting(s.reader)))
  }

  predicate Inv(s: State, after: int) { ServerOk(s) && ReaderOk(s, after) }

  lemma {:induction false} AfterFacts(entries: seq<Entry>, after: int)
    ensures forall e :: e in After(entries, after) <==> e in entries && e.id > after
  {
    if entries != [] {
      AfterFacts(entries[1..], after);
      assert entries == [entries[0]] + entries[1..];
    }
  }

  lemma {:induction false} HighestBounds(cursor: int, entries: seq<Entry>)
    ensures cursor <= Highest(cursor, entries)
    ensures forall e | e in entries :: e.id <= Highest(cursor, entries)
    decreases |entries|
  {
    if entries != [] {
      HighestBounds(MaxOf(cursor, entries[0].id), entries[1..]);
      assert entries == [entries[0]] + entries[1..];
    }
  }

  /** Catching up reads genuine chunks and reaches the newest committed one. */
  lemma CatchUp(entries: seq<Entry>, log: seq<string>, cursor: int)
    requires EntriesAreTail(entries, log) && -1 <= cursor
    ensures AllGenuine(After(entries, cursor), log)
    ensures |log| - 1 <= Highest(cursor, After(entries, cursor))
  {
    AfterFacts(entries, cursor);
    HighestBounds(cursor, After(entries, cursor));
    forall e | e in After(entries, cursor)
      ensures Genuine(e, log)
    {
      var k :| 0 <= k < |entries| && entries[k] == e;
    }
    if log != [] {
      assert entries[|entries| - 1] in entries;
    }
  }

  lemma {:induction false} HighestSeenAtLeast(after: int, seen: seq<nat>)
    ensures after <= HighestSeen(after, seen)
  {
    if seen != [] {
      HighestSeenAtLeast(after, seen[..|seen| - 1]);
    }
  }

  lemma HighestSeenSnoc(after: int, seen: seq<nat>, id: nat)
    ensures HighestSeen(after, seen + [id]) == MaxOf(HighestSeen(after, seen), id)
  {
    assert (seen + [id])[..|seen|] == seen;
  }

  lemma TailGrows(entries: seq<Entry>, log: seq<string>, raw: string)
    requires EntriesAreTail(entries, log)
    ensures EntriesAreTail(
              Trim(entries + [Entry(|log|, Buffer.WrapSseChunk(|log|, raw))]), log + [raw])
  {
    var e := Entry(|log|, Buffer.WrapSseChunk(|log|, raw));
    var more, trimmed := log + [raw], Trim(entries + [e]);
    var dropped := |entries| + 1 - |trimmed|;
    forall k | 0 <= k < |trimmed|
      ensures trimmed[k].id == |more| - |trimmed| + k && Genuine(trimmed[k], more)
    {
      assert trimmed[k] == (entries + [e])[dropped + k];
      assert dropped + k < |entries| ==> Genuine(entries[dropped + k], log);
    }
  }

  lemma InboxGrows(inbox: seq<Published>, log: seq<string>, raw: string, closed: bool)
    requires InboxGenuine(inbox, log, closed)
    ensures InboxGenuine(inbox, log + [raw], closed)
    ensures InboxGenuine(
              inbox + [Published(Buffer.WrapSseChunk(|log|, raw), |log|)], log + [raw], closed)
  {
    forall m | m in inbox
      ensures GenuineMessage(m, log + [raw], closed)
    {
      assert GenuineMessage(m, log, closed);
    }
  }

  lemma GenuineStays(entries: seq<Entry>, seen: seq<nat>, yielded: seq<string>, log: seq<string>, raw: string)
    requires AllGenuine(entries, log) && SeenGenuine(seen, yielded, log)
    ensures AllGenuine(entries, log + [raw]) && SeenGenuine(seen, yielded, log + [raw])
  {
  }

  lemma CommitKeeps(s: State, after: int)
    requires Inv(s, after) && s.writer.Reserved?
    ensures Inv(CommitNext(s), after)
  {
    var raw := s.writer.raw;
    TailGrows(s.entries, s.log, raw);
    InboxGrows(s.inbox, s.log, raw, false);
    GenuineStays(Waiting(s.reader), s.seen, s.yielded, s.log, raw);
  }

  lemma InboxPops(inbox: seq<Published>, log: seq<string>, closed: bool)
    requires InboxGenuine(inbox, log, closed) && inbox != []
    ensures InboxGenuine(inbox[1..], log, closed) && GenuineMessage(inbox[0], log, closed)
  {
    assert inbox[0] in inbox;
    assert forall m | m in inbox[1..] :: m in inbox;
  }

  lemma WrappedIsNoDone(n: nat, raw: string)
    requires !StartsWith(raw, "id: ")
    ensures Buffer.WrapSseChunk(n, raw) != DONE_MESSAGE
  {
    assert Buffer.WrapSseChunk(n, raw)[0] == 'i';
  }

  lemma SeenSnoc(seen: seq<nat>, yielded: seq<string>, log: seq<string>, e: Entry)
    requires SeenGenuine(seen, yielded, log) && Genuine(e, log)
    ensures SeenGenuine(seen + [e.id], yielded + [e.text], log)
  {
  }

  /** The next state of a reader at the loop head that pops a message. */
  lemma ReceiveKeeps(s: State, after: int)
    requires Inv(s, after) && -1 <= after && s.reader.Head? && s.inbox != []
    ensures Inv(ReceiveNext(s), after)
  {
    var m, cursor := s.inbox[0], s.reader.cursor;
    InboxPops(s.inbox, s.log, s.writer.Closed?);
    if m.id < 0 {
      ServerKeeps(s, ReceiveNext(s));
    } else {
      assert s.log[m.id] in s.log;
      WrappedIsNoDone(m.id, s.log[m.id]);
      CursorOfWrapped(m.id, s.log[m.id], cursor);
      ReceiveChunkKeeps(s, after);
    }
  }

  /** The server's side, when a reader's step takes at most a message from the inbox. */
  lemma ServerKeeps(s: State, t: State)
    requires ServerOk(s)
    requires t.log == s.log && t.counter == s.counter && t.entries == s.entries
    requires t.metaDone == s.metaDone && t.writer == s.writer
    requires t.inbox == s.inbox || InboxGenuine(t.inbox, s.log, s.writer.Closed?)
    ensures ServerOk(t)
  {
  }

  lemma HeadAdvances(s: State, t: State, e: Entry, after: int)
    requires ReaderOk(s, after) && s.reader.Head? && Genuine(e, s.log)
    requires t.log == s.log && t.seen == s.seen + [e.id] && t.yielded == s.yielded + [e.text]
    requires t.reader == Head(MaxOf(s.reader.cursor, e.id))
    ensures ReaderOk(t, after)
  {
    HighestSeenSnoc(after, s.seen, e.id);
    SeenSnoc(s.seen, s.yielded, s.log, e);
  }

  lemma ReceiveChunkKeeps(s: State, after: int)
    requires Inv(s, after) && s.reader.Head? && s.inbox != []
    requires InboxGenuine(s.inbox[1..], s.log, s.writer.Closed?)
    requires var m := s.inbox[0];
             && m.id >= 0 && m.text != DONE_MESSAGE && Genuine(Entry(m.id, m.text), s.log)
             && CursorFromChunk(m.text, s.reader.cursor) == MaxOf(s.reader.cursor, m.id)
    ensures Inv(ReceiveNext(s), after)
  {
    var m, t := s.inbox[0], ReceiveNext(s);
    ServerKeeps(s, t);
    HeadAdvances(s, t, Entry(m.id, m.text), after);
  }

  lemma HighestOfWaiting(cursor: int, entries: seq<Entry>)
    requires entries != []
    ensures Highest(cursor, entries) == Highest(MaxOf(cursor, entries[0].id), entries[1..])
  {
  }

  lemma DeliverKeeps(s: State, next: Reader, after: int)
    requires Inv(s, after) && Waiting(s.reader) != []
    requires Waiting(next) == Waiting(s.reader)[1..] && !next.Fresh?
    requires forall c :: CursorIs(s.reader, c) ==> CursorIs(next, c)
    requires next.Leaving? || next.Returned? ==> s.reader.Leaving?
    requires !next.Tailing?
    ensures Inv(Deliver(s, Waiting(s.reader)[0], next), after)
  {
    var rest := Waiting(s.reader);
    var e := rest[0];
    var t := Deliver(s, e, next);
    assert e in rest && forall x | x in rest[1..] :: x in rest;
    HighestSeenSnoc(after, s.seen, e.id);
    HighestOfWaiting(HighestSeen(after, s.seen), rest);
    SeenSnoc(s.seen, s.yielded, s.log, e);
    ServerKeeps(s, t);
    DeliveredReaderOk(s, t, after);
  }

  lemma DeliveredReaderOk(s: State, t: State, after: int)
    requires ReaderOk(s, after) && t.log == s.log && t.writer == s.writer && !t.reader.Fresh?
    requires SeenGenuine(t.seen, t.yielded, t.log)
    requires forall e | e in Waiting(t.reader) :: e in Waiting(s.reader)
    requires forall c :: CursorIs(s.reader, c) ==> CursorIs(t.reader, c)
    requires t.reader.Leaving? || t.reader.Returned? ==> s.reader.Leaving?
    requires !t.reader.Tailing?
    requires Highest(HighestSeen(after, t.seen), Waiting(t.reader)) ==
             Highest(HighestSeen(after, s.seen), Waiting(s.reader))
    ensures ReaderOk(t, after)
  {
  }

  /** Nothing waits any more: the reader goes on from where it is. */
  lemma ExhaustedKeeps(s: State, after: int)
    requires Inv(s, after) && Waiting(s.reader) == []
    ensures Inv(YieldNext(s), after)
  {
    hide Buffer.WrapSseChunk;
    var t := YieldNext(s);
    if t != s {
      ServerKeeps(s, t);
      DeliveredReaderOk(s, t, after);
    }
  }

  lemma PublishKeeps(s: State, after: int)
    requires Inv(s, after)
    ensures Inv(Apply(s, PublishDone, after), after)
  {
    if s.writer.MetaSet? {
      forall m | m in s.inbox
        ensures GenuineMessage(m, s.log, true)
      {
        assert GenuineMessage(m, s.log, false);
      }
    }
  }

  lemma TailKeeps(s: State, after: int)
    requires Inv(s, after) && -1 <= after && s.reader.Tailing?
    ensures Inv(TailNext(s), after)
  {
    HighestSeenAtLeast(after, s.seen);
    CatchUp(s.entries, s.log, s.reader.cursor);
    ServerKeeps(s, TailNext(s));
  }

  /** The steps that touch neither chunks nor messages. */
  predicate Plain(step: Step) {
    step.Reserve? || step.SetDone? || step.SetMeta? || step.CheckMeta? || step.Connect? || step.TimeOut? || step.ReadMeta?
  }

  lemma PlainKeepsServer(s: State, step: Step, after: int)
    requires ServerOk(s) && Plain(step) && (step.Reserve? ==> !StartsWith(step.raw, "id: "))
    ensures ServerOk(Apply(s, step, after))
  {
    hide Buffer.WrapSseChunk, CursorFromChunk, StartsWith, EntriesAreTail, InboxGenuine;
  }

  lemma PlainKeepsReader(s: State, step: Step, after: int)
    requires Inv(s, after) && Plain(step)
    ensures ReaderOk(Apply(s, step, after), after)
  {
    hide Buffer.WrapSseChunk, CursorFromChunk, StartsWith, EntriesAreTail, InboxGenuine, SeenGenuine, AllGenuine;
    NothingGenuine(s.log);
  }

  lemma NothingGenuine(log: seq<string>)
    ensures AllGenuine([], log)
  {
  }

  lemma ServerHasTail(s: State)
    requires ServerOk(s)
    ensures EntriesAreTail(s.entries, s.log)
  {
  }

  lemma ReplayKeeps(s: State, after: int)
    requires Inv(s, after) && -1 <= after
    ensures Inv(Apply(s, Replay, after), after)
  {
    hide Buffer.WrapSseChunk, CursorFromChunk, After, Highest, EntriesAreTail, AllGenuine, ServerOk;
    ServerHasTail(s);
    CatchUp(s.entries, s.log, after);
    ServerKeeps(s, Apply(s, Replay, after));
  }

  /** In every run the list is the tail of the log, messages are genuine, and the cursor is accounted for. */
  lemma {:induction false} RunKeeps(steps: seq<Step>, after: int)
    requires PlainChunks(steps) && -1 <= after
    ensures Inv(Run(steps, after), after)
  {
    if steps != [] {
      hide ServerOk, ReaderOk, ReceiveNext, TailNext, CommitNext, StartsWith, Deliver;
      var init, step := steps[..|steps| - 1], steps[|steps| - 1];
      assert steps == init + [step];
      RunKeeps(init, after);
      var s := Run(init, after);
      match step
      case Commit =>
        if s.writer.Reserved? {
          CommitKeeps(s, after);
        }
      case PublishDone => PublishKeeps(s, after);
      case Receive =>
        if s.reader.Head? && s.inbox != [] {
          ReceiveKeeps(s, after);
        }
      case Yield =>
        var rest := Waiting(s.reader);
        if rest == [] {
          ExhaustedKeeps(s, after);
        } else {
          DeliverKeeps(s, NextToYield(s.reader), after);
        }
      case Replay => ReplayKeeps(s, after);
      case ReadTail =>
        if s.reader.Tailing? {
          TailKeeps(s, after);
        }
      case _ =>
        PlainKeepsServer(s, step, after);
        PlainKeepsReader(s, step, after);
    }
  }

  /** The reader after it has yielded the first waiting entry. */
  function NextToYield(r: Reader): Reader
    requires Waiting(r) != []
  {
    match r
    case Replaying(rest, cursor) => Replaying(rest[1..], cursor)
    case Catching(rest, cursor) => Catching(rest[1..], cursor)
    case Leaving(rest) => Leaving(rest[1..])
  }

  // ---------- What a subscription promises ----------

  /**
   At every head of the live loop the cursor is the highest id yielded, or where the
   subscription began; every text yielded is a committed chunk under its own number.
   */
  lemma CursorIsHighestYielded(steps: seq<Step>, after: int)
    requires PlainChunks(steps) && -1 <= after
    ensures var s := Run(steps, after);
            && (s.reader.Head? ==> s.reader.cursor == HighestSeen(after, s.seen))
            && |s.seen| == |s.yielded|
            && forall k | 0 <= k < |s.seen| ::
                 s.seen[k] < |s.log| && s.yielded[k] == Buffer.WrapSseChunk(s.seen[k], s.log[s.seen[k]])
  {
    RunKeeps(steps, after);
    var s := Run(steps, after);
    forall k | 0 <= k < |s.seen|
      ensures s.seen[k] < |s.log| && s.yielded[k] == Buffer.WrapSseChunk(s.seen[k], s.log[s.seen[k]])
    {
      assert Genuine(Entry(s.seen[k], s.yielded[k]), s.log);
    }
  }

  lemma {:induction false} HighestSeenGrows(after: int, seen: seq<nat>, more: seq<nat>)
    requires seen <= more
    ensures HighestSeen(after, seen) <= HighestSeen(after, more)
    decreases |more|
  {
    if |seen| < |more| {
      HighestSeenGrows(after, seen, more[..|more| - 1]);
    } else {
      assert seen == more;
    }
  }

  lemma SeenGrowsInStep(s: State, step: Step, after: int)
    ensures s.seen <= Apply(s, step, after).seen
  {
    hide After, Highest, CursorFromChunk, Buffer.WrapSseChunk, Trim;
  }

  lemma {:induction false} SeenGrows(steps: seq<Step>, n: nat, after: int)
    requires n <= |steps|
    ensures Run(steps[..n], after).seen <= Run(steps, after).seen
    decreases |steps|
  {
    hide Apply;
    if n < |steps| {
      var init := steps[..|steps| - 1];
      SeenGrows(init, n, after);
      assert init[..n] == steps[..n];
      SeenGrowsInStep(Run(init, after), steps[|steps| - 1], after);
    } else {
      assert steps[..n] == steps;
    }
  }

  /** Between two heads of the live loop the cursor never decreases. */
  lemma CursorNeverDecreases(steps: seq<Step>, n: nat, after: int)
    requires PlainChunks(steps) && -1 <= after && n <= |steps|
    requires Run(steps[..n], after).reader.Head? && Run(steps, after).reader.Head?
    ensures Run(steps[..n], after).reader.cursor <= Run(steps, after).reader.cursor
  {
    assert forall raw :: Reserve(raw) in steps[..n] ==> Reserve(raw) in steps;
    CursorIsHighestYielded(steps[..n], after);
    CursorIsHighestYielded(steps, after);
    SeenGrows(steps, n, after);
    HighestSeenGrows(after, Run(steps[..n], after).seen, Run(steps, after).seen);
  }

  lemma {:induction false} HighestIsSeen(after: int, seen: seq<nat>)
    ensures HighestSeen(after, seen) == after || HighestSeen(after, seen) in seen
  {
    if seen != [] {
      HighestIsSeen(after, seen[..|seen| - 1]);
    }
  }

  /** The chunk numbered `id` was yielded, as committed. */
  predicate Delivered(s: State, id: int) {
    exists k :: 0 <= k < |s.seen| && k < |s.yielded| && s.seen[k] == id && Genuine(Entry(s.seen[k], s.yielded[k]), s.log)
  }

  lemma HighestIsDelivered(s: State, after: int)
    requires SeenGenuine(s.seen, s.yielded, s.log) && after < HighestSeen(after, s.seen)
    ensures Delivered(s, HighestSeen(after, s.seen))
  {
    HighestIsSeen(after, s.seen);
    var k :| 0 <= k < |s.seen| && s.seen[k] == HighestSeen(after, s.seen);
    assert Genuine(Entry(s.seen[k], s.yielded[k]), s.log);
  }

  lemma DeliveredExists(s: State, id: int)
    requires Delivered(s, id)
    ensures 0 <= id < |s.log|
  {
  }

  lemma {:induction false} SeenIsBounded(after: int, seen: seq<nat>, k: nat)
    requires k < |seen|
    ensures seen[k] <= HighestSeen(after, seen)
  {
    if k < |seen| - 1 {
      SeenIsBounded(after, seen[..|seen| - 1], k);
    }
  }

  /** The newest chunk was delivered, or never asked for, exactly when nothing newer than the highest id exists. */
  lemma NewestDelivered(s: State, after: int)
    requires SeenGenuine(s.seen, s.yielded, s.log)
    ensures |s.log| - 1 <= after || Delivered(s, |s.log| - 1) <==> |s.log| - 1 <= HighestSeen(after, s.seen)
  {
    HighestSeenAtLeast(after, s.seen);
    if after < |s.log| - 1 <= HighestSeen(after, s.seen) {
      HighestIsDelivered(s, after);
      DeliveredExists(s, HighestSeen(after, s.seen));
    }
    if Delivered(s, |s.log| - 1) {
      var k :| 0 <= k < |s.seen| && s.seen[k] == |s.log| - 1;
      SeenIsBounded(after, s.seen, k);
    }
  }

  /**
   A reader that leaves the live loop because the run is done has been given the run's last
   chunk, unless it was already at or below the id the subscription asked to start after.
   */
  lemma LeavingDeliversTheLast(steps: seq<Step>, after: int)
    requires PlainChunks(steps) && -1 <= after && Run(steps, after).reader.Returned?
    ensures var s := Run(steps, after);
            Finished(s.writer) && (|s.log| - 1 <= after || Delivered(s, |s.log| - 1))
  {
    hide Run, ReaderOk, ServerOk, PlainChunks;
    RunKeeps(steps, after);
    ReturnedHasTheLast(Run(steps, after), after);
  }

  lemma ReturnedHasTheLast(s: State, after: int)
    requires ReaderOk(s, after) && s.reader.Returned?
    ensures Finished(s.writer) && (|s.log| - 1 <= after || Delivered(s, |s.log| - 1))
  {
    NewestDelivered(s, after);
  }

  // ---------- What it does not promise ----------

  lemma RunSnoc(steps: seq<Step>, last: Step, after: int)
    ensures Run(steps + [last], after) == Apply(Run(steps, after), last, after)
  {
    assert (steps + [last])[..|steps|] == steps;
  }

  /** The highest id the replay handed out, while the reader can still reach the early return. */
  predicate ReplayReached(s: State, after: int, reached: int) {
    match s.reader
    case Fresh => false
    case Replaying(rest, _) => Highest(HighestSeen(after, s.seen), rest) == reached
    case ReturnedEarly => HighestSeen(after, s.seen) == reached
    case _ => true
  }

  lemma ReplayReachedStep(s: State, step: Step, after: int, reached: int)
    requires ReplayReached(s, after, reached)
    ensures ReplayReached(Apply(s, step, after), after, reached)
  {
    hide Buffer.WrapSseChunk, CursorFromChunk, After, Trim;
    if step == Yield && s.reader.Replaying? && s.reader.rest != [] {
      var e := s.reader.rest[0];
      HighestSeenSnoc(after, s.seen, e.id);
      HighestOfWaiting(HighestSeen(after, s.seen), s.reader.rest);
    }
  }

  lemma {:induction false} ReplayReachedRun(steps: seq<Step>, n: nat, after: int, reached: int)
    requires n <= |steps| && ReplayReached(Run(steps[..n], after), after, reached)
    ensures ReplayReached(Run(steps, after), after, reached)
    decreases |steps|
  {
    hide Apply;
    if n < |steps| {
      var init := steps[..|steps| - 1];
      assert init[..n] == steps[..n];
      ReplayReachedRun(init, n, after, reached);
      ReplayReachedStep(Run(init, after), steps[|steps| - 1], after, reached);
    } else {
      assert steps[..n] == steps;
    }
  }

  /** A replay hands out everything committed by then, up to the newest chunk. */
  lemma ReplayReachesNewest(entries: seq<Entry>, log: seq<string>, after: int)
    requires EntriesAreTail(entries, log) && -1 <= after
    ensures Highest(after, After(entries, after)) == MaxOf(after, |log| - 1)
  {
    CatchUp(entries, log, after);
    HighestIsOneOf(after, After(entries, after));
    AfterFacts(entries, after);
  }

  lemma {:induction false} HighestIsOneOf(cursor: int, entries: seq<Entry>)
    ensures Highest(cursor, entries) == cursor || exists e :: e in entries && e.id == Highest(cursor, entries)
    decreases |entries|
  {
    if entries != [] {
      HighestIsOneOf(MaxOf(cursor, entries[0].id), entries[1..]);
      assert entries[0] in entries;
    }
  }

  lemma {:induction false} NothingSeenYet(steps: seq<Step>, after: int)
    requires Run(steps, after).reader.Fresh?
    ensures Run(steps, after).seen == []
  {
    hide Apply;
    if steps != [] {
      FreshStep(Run(steps[..|steps| - 1], after), steps[|steps| - 1], after);
      NothingSeenYet(steps[..|steps| - 1], after);
    }
  }

  lemma FreshStep(s: State, step: Step, after: int)
    requires Apply(s, step, after).reader.Fresh?
    ensures s.reader.Fresh? && Apply(s, step, after).seen == s.seen
  {
    hide Buffer.WrapSseChunk, CursorFromChunk, After, Trim, Highest;
  }

  /** A subscription is started by its replay and by nothing else. */
  lemma {:induction false} StartedByReplay(steps: seq<Step>, after: int) returns (n: nat)
    requires !Run(steps, after).reader.Fresh?
    ensures n < |steps| && steps[n] == Replay && Run(steps[..n], after).reader.Fresh?
  {
    hide Buffer.WrapSseChunk, CursorFromChunk, After, Trim, Highest;
    var init := steps[..|steps| - 1];
    if Run(init, after).reader.Fresh? {
      n := |steps| - 1;
    } else {
      n := StartedByReplay(init, after);
      assert init[..n] == steps[..n];
    }
  }

  lemma AtReplay(s: State, after: int)
    requires Inv(s, after) && -1 <= after && s.reader.Fresh? && s.seen == []
    ensures ReplayReached(Apply(s, Replay, after), after, MaxOf(after, |s.log| - 1))
  {
    ReplayReachesNewest(s.entries, s.log, after);
  }

  /**
   The check between the replay and the live loop returns without a tail. Then the newest chunk
   was delivered, or never asked for, if and only if it was committed before the replay was read.
   */
  lemma EarlyReturnMissesLateChunks(steps: seq<Step>, after: int) returns (n: nat)
    requires PlainChunks(steps) && -1 <= after && Run(steps, after).reader.ReturnedEarly?
    ensures n < |steps| && steps[n] == Replay && Run(steps[..n], after).reader.Fresh?
    ensures var s, atReplay := Run(steps, after), Run(steps[..n], after);
            |s.log| - 1 <= after || Delivered(s, |s.log| - 1) <==>
            |s.log| - 1 <= MaxOf(after, |atReplay.log| - 1)
  {
    hide Apply, Inv, Delivered, HighestSeen;
    n := StartedByReplay(steps, after);
    var before := Run(steps[..n], after);
    assert steps[..n + 1] == steps[..n] + [Replay];
    RunSnoc(steps[..n], Replay, after);
    assert forall raw :: Reserve(raw) in steps[..n] ==> Reserve(raw) in steps;
    RunKeeps(steps[..n], after);
    NothingSeenYet(steps[..n], after);
    AtReplay(before, after);
    ReplayReachedRun(steps, n + 1, after, MaxOf(after, |before.log| - 1));
    RunKeeps(steps, after);
    FinallySeen(Run(steps, after), after);
  }

  lemma FinallySeen(s: State, after: int)
    requires Inv(s, after)
    ensures |s.log| - 1 <= after || Delivered(s, |s.log| - 1) <==> |s.log| - 1 <= HighestSeen(after, s.seen)
  {
    NewestDelivered(s, after);
  }

  /** A replay of nothing, and then the only chunk. */
  lemma ReplayThenCommit(raw: string)
    ensures var s := Run([Replay, Reserve(raw), Commit], -1);
            s.reader == Replaying([], -1) && s.writer.Ready? && s.log == [raw] && s.yielded == []
  {
    hide Buffer.WrapSseChunk, Trim;
    assert [Replay] == [] + [Replay];
    assert [Replay, Reserve(raw)] == [Replay] + [Reserve(raw)];
    assert [Replay, Reserve(raw), Commit] == [Replay, Reserve(raw)] + [Commit];
    RunSnoc([], Replay, -1);
    RunSnoc([Replay], Reserve(raw), -1);
    RunSnoc([Replay, Reserve(raw)], Commit, -1);
  }

  /** It happens: the run ends between the replay and the check, and its only chunk is lost. */
  lemma EarlyReturnExample(raw: string)
    ensures var s := Run([Replay, Reserve(raw), Commit] + [SetDone, SetMeta, CheckMeta], -1);
            s.reader.ReturnedEarly? && s.log == [raw] && s.yielded == []
  {
    hide Buffer.WrapSseChunk, Trim, After, Highest;
    var c := [Replay, Reserve(raw), Commit];
    ReplayThenCommit(raw);
    assert c + [SetDone, SetMeta, CheckMeta] == c + [SetDone] + [SetMeta] + [CheckMeta];
    RunSnoc(c, SetDone, -1);
    RunSnoc(c + [SetDone], SetMeta, -1);
    RunSnoc(c + [SetDone] + [SetMeta], CheckMeta, -1);
  }
}
