/**
 The in-process buffer as the service keeps it: fields updated in place. Every method is
 proved to be a sequence of the steps `RunBuffer` reasons about.
 */
module MemoryRunBuffers {
  import opened PyText
  import opened RunBuffer
  import opened RunBufferTheorems

  datatype Status = Status(completed: bool, lastEventId: int, bufferedChunks: nat)

  class MemoryRunBuffer {
    ghost var log: seq<string>
    var chunks: seq<Chunk>
    var nextSeq: nat
    var done: bool
    var subscribers: seq<nat>
    var subs: seq<Subscriber>
    const queueMax: nat

    /** The state of the step system while the producer stands at `producer`. */
    ghost function View(producer: Producer): State
      reads this
    {
      State(log, chunks, nextSeq, done, subscribers, producer, subs)
    }

    constructor (queueMax: nat)
      ensures View(Idle) == INIT && this.queueMax == queueMax
    {
      this.queueMax := queueMax;
      log, chunks, nextSeq, done, subscribers, subs := [], [], 0, false, [], [];
    }

    /** The locked part of `append` on a run that is not finished. */
    method Accept(raw: string) returns (wrapped: string, targets: seq<nat>)
      requires !done
      modifies this
      ensures View(Pushing(wrapped, targets, [])) == Apply(old(View(Idle)), Append(raw), queueMax)
      ensures targets == old(subscribers)
    {
      var seqNo := nextSeq;
      nextSeq := nextSeq + 1;
      wrapped := WrapSseChunk(seqNo, raw);
      chunks := chunks + [Chunk(seqNo, wrapped)];
      if |chunks| > MAX_CHUNKS {
        chunks := chunks[1..];
      }
      log := log + [raw];
      targets := subscribers;
    }

    /** `put_nowait` into one queue, and into the list of slow ones when it is full. */
    method PushOne(wrapped: string, q: nat, ghost todo: seq<nat>, slow: seq<nat>) returns (found: seq<nat>)
      requires q < |subs| && todo != [] && todo[0] == q
      modifies this`subs
      ensures View(Pushing(wrapped, todo[1..], found)) ==
              Apply(old(View(Pushing(wrapped, todo, slow))), PushNext, queueMax)
    {
      var u := subs[q];
      if |u.queue| < queueMax {
        subs := subs[q := u.(queue := u.queue + [Data(wrapped)])];
        found := slow;
      } else {
        found := slow + [q];
      }
    }

    method PushAll(wrapped: string, targets: seq<nat>) returns (slow: seq<nat>)
      requires Inv(View(Pushing(wrapped, targets, [])), queueMax)
      modifies this`subs
      ensures View(Pushing(wrapped, [], slow)) ==
              Run(old(View(Pushing(wrapped, targets, []))), Pushes(|targets|), queueMax)
    {
      ghost var s0 := View(Pushing(wrapped, targets, []));
      slow := [];
      assert Pushes(0) == [] && targets[0..] == targets;
      for k := 0 to |targets|
        invariant View(Pushing(wrapped, targets[k..], slow)) == Run(s0, Pushes(k), queueMax)
      {
        RunKeepsInv(s0, Pushes(k), queueMax);
        ghost var todo := targets[k..];
        assert todo[0] == targets[k] && todo[0] in todo && todo[1..] == targets[k + 1..];
        assert ListsOk(View(Pushing(wrapped, todo, slow)));
        slow := PushOne(wrapped, targets[k], todo, slow);
        assert Pushes(k + 1)[..k] == Pushes(k);
      }
      assert targets[|targets|..] == [];
    }

    /** One call of `append`: the locked part, a push to each queue, and the removal of slow ones. */
    method AppendChunk(raw: string)
      requires Inv(View(Idle), queueMax)
      modifies this
      ensures View(Idle) == Run(old(View(Idle)), AppendSteps(raw, |old(subscribers)|), queueMax)
      ensures Inv(View(Idle), queueMax)
    {
      ghost var s0 := View(Idle);
      ghost var n := |subscribers|;
      RunKeepsInv(s0, AppendSteps(raw, n), queueMax);
      AppendStepsRun(s0, raw, n, queueMax);
      if done {
        DoneAppendIsNothing(s0, raw, queueMax);
        return;
      }
      StepKeepsInv(s0, Append(raw), queueMax);
      var wrapped, targets := Accept(raw);
      var slow := PushAll(wrapped, targets);
      subscribers := RemoveAll(subscribers, slow);
    }

    /** The locked part of `finish`; the sentinels still to be put are returned. */
    method MarkFinished() returns (todo: seq<nat>)
      modifies this
      ensures View(FinishingOrIdle(todo)) == Apply(old(View(Idle)), Finish, queueMax)
    {
      done := true;
      todo := subscribers;
      subscribers := [];
    }

    /** One `put` of the sentinel, which waits while the queue is full. */
    method PutNextSentinel(todo: seq<nat>) returns (rest: seq<nat>)
      requires todo != [] && todo[0] < |subs|
      modifies this
      ensures View(FinishingOrIdle(rest)) == Apply(old(View(Finishing(todo))), PutSentinel, queueMax)
    {
      var u := subs[todo[0]];
      if |u.queue| < queueMax {
        subs := subs[todo[0] := u.(queue := u.queue + [Sentinel])];
        rest := todo[1..];
      } else {
        rest := todo;
      }
    }

    /** The replay handed to a new subscriber. */
    method Snapshot(after: int) returns (replay: seq<string>)
      ensures replay == ReplayTexts(chunks, after)
    {
      replay := [];
      for k := 0 to |chunks|
        invariant replay + ReplayTexts(chunks[k..], after) == ReplayTexts(chunks, after)
      {
        assert chunks[k..][1..] == chunks[k + 1..];
        ghost var rest := ReplayTexts(chunks[k + 1..], after);
        if chunks[k].id > after {
          assert replay + ([chunks[k].text] + rest) == replay + [chunks[k].text] + rest;
          replay := replay + [chunks[k].text];
        } else {
          assert [] + rest == rest;
        }
      }
      assert chunks[|chunks|..] == [] && replay + [] == replay;
    }

    /** The locked part of `subscribe`. */
    method Register(after: int, ghost producer: Producer) returns (who: nat)
      requires RetainsSuffix(View(producer))
      modifies this
      ensures View(producer) == Apply(old(View(producer)), Subscribe(after), queueMax)
      ensures who == |old(subs)|
    {
      hide ReplayTexts, RetainsSuffix, SubscribeFrom, WrapSseChunk;
      SubscribeAdds(View(producer), after);
      // Recorded for the history of the subscription only.
      var oldest := nextSeq - |chunks|;
      var start := if after + 1 < oldest then oldest else if after + 1 > nextSeq then nextSeq else after + 1;
      who := |subs|;
      if !done {
        subscribers := subscribers + [who];
      }
      var replay := Snapshot(after);
      subs := subs + [Subscriber(start, [], Replaying(replay, done), [])];
    }

    /** One resumption of a subscriber's generator; `None` when it waits or has ended. */
    method Advance(who: nat, ghost producer: Producer) returns (r: Option<string>)
      requires who < |subs|
      modifies this
      ensures View(producer) == Apply(
                old(View(producer)), if old(subs[who].phase.Live?) then Get(who) else YieldReplay(who), queueMax)
      ensures who < |subs|
      ensures r.Some? <==> subs[who].yielded != old(subs[who].yielded)
      ensures r.Some? ==> subs[who].yielded == old(subs[who].yielded) + [r.value]
    {
      var u := subs[who];
      r := None;
      match u.phase {
        case Replaying(rest, runDone) =>
          if rest != [] {
            r := Some(rest[0]);
            subs := subs[who := u.(phase := Replaying(rest[1..], runDone), yielded := u.yielded + [rest[0]])];
          } else if runDone {
            subs := subs[who := u.(phase := Ended(true))];
            subscribers := Remove(subscribers, who);
          } else {
            subs := subs[who := u.(phase := Live)];
          }
        case Live =>
          if u.queue != [] {
            match u.queue[0] {
              case Data(text) =>
                r := Some(text);
                subs := subs[who := u.(queue := u.queue[1..], yielded := u.yielded + [text])];
              case Sentinel =>
                subs := subs[who := u.(queue := u.queue[1..], phase := Ended(true))];
                subscribers := Remove(subscribers, who);
            }
          }
        case Ended(_) =>
      }
    }

    /** The client goes away. */
    method Abandon(who: nat, ghost producer: Producer)
      requires who < |subs|
      modifies this
      ensures View(producer) == Apply(old(View(producer)), Close(who), queueMax)
    {
      if !subs[who].phase.Ended? {
        subs := subs[who := subs[who].(phase := Ended(false))];
        subscribers := Remove(subscribers, who);
      }
    }

    /** The id reported as last is the newest one ever numbered, trimmed or not. */
    method StatusSnapshot(ghost producer: Producer) returns (r: Status)
      requires RetainsSuffix(View(producer))
      ensures r.completed == done
      ensures r.lastEventId == nextSeq - 1
      ensures r.bufferedChunks == if nextSeq < MAX_CHUNKS then nextSeq else MAX_CHUNKS
    {
      var lastId := if chunks != [] then chunks[|chunks| - 1].id else -1;
      return Status(done, lastId, |chunks|);
    }
  }

  function Pushes(n: nat): seq<Step> {
    seq(n, _ => PushNext)
  }

  /** The steps of one `append` while `n` subscribers listen. */
  function AppendSteps(raw: string, n: nat): seq<Step> {
    [Append(raw)] + (Pushes(n) + [DropSlow])
  }

  lemma AppendStepsRun(s: State, raw: string, n: nat, queueMax: nat)
    ensures Run(s, AppendSteps(raw, n), queueMax) ==
            Apply(Run(Apply(s, Append(raw), queueMax), Pushes(n), queueMax), DropSlow, queueMax)
  {
    RunCons(s, Append(raw), Pushes(n) + [DropSlow], queueMax);
    assert (Pushes(n) + [DropSlow])[..n] == Pushes(n);
  }

  /** Appending to a finished run changes nothing. */
  lemma DoneAppendIsNothing(s: State, raw: string, queueMax: nat)
    requires s.done && s.producer.Idle? && s.subscribers == []
    ensures Run(s, AppendSteps(raw, 0), queueMax) == s
  {
    AppendStepsRun(s, raw, 0, queueMax);
  }
}
