/** Streamed tool-call fragments merged by index, and the blocks they become. */
module OpenAiDelta {
  import opened PyText

  datatype FunctionPart = FunctionPart(name: string, arguments: Option<string>)

  /** One element of a `tool_calls` delta; an absent or empty id or name is "". */
  datatype Delta = NotAnObject | Delta(index: int, id: string, call: Option<FunctionPart>)

  datatype Slot = Slot(id: string, name: string, arguments: string)

  const EMPTY_SLOT := Slot("", "", "")

  type Slots = map<int, Slot>

  // ---------- Merging ----------

  function Merge(slot: Slot, d: Delta): Slot
    requires d.Delta?
  {
    var named := if d.id != "" then slot.(id := d.id) else slot;
    if d.call.None? then named
    else
      var f := d.call.value;
      named.(name := if f.name != "" then f.name else named.name,
             arguments := if f.arguments.Some? then named.arguments + f.arguments.value else named.arguments)
  }

  function SlotOf(slots: Slots, i: int): Slot { if i in slots then slots[i] else EMPTY_SLOT }

  function Absorb(slots: Slots, d: Delta): Slots {
    if d.NotAnObject? then slots else slots[d.index := Merge(SlotOf(slots, d.index), d)]
  }

  function Accumulated(slots: Slots, deltas: seq<Delta>): Slots {
    if deltas == [] then slots
    else Absorb(Accumulated(slots, deltas[..|deltas| - 1]), deltas[|deltas| - 1])
  }

  class ToolCallSlots {
    var slots: Slots

    constructor ()
      ensures slots == map[]
    {
      slots := map[];
    }

    method Accumulate(deltas: seq<Delta>)
      modifies this
      ensures slots == Accumulated(old(slots), deltas)
    {
      ghost var before := slots;
      for n := 0 to |deltas|
        invariant slots == Accumulated(before, deltas[..n])
      {
        assert deltas[..n + 1][..n] == deltas[..n];
        var d := deltas[n];
        if d.NotAnObject? {
          continue;
        }
        var slot := SlotOf(slots, d.index);
        if d.id != "" {
          slot := slot.(id := d.id);
        }
        if d.call.Some? {
          if d.call.value.name != "" {
            slot := slot.(name := d.call.value.name);
          }
          if d.call.value.arguments.Some? {
            slot := slot.(arguments := slot.arguments + d.call.value.arguments.value);
          }
        }
        slots := slots[d.index := slot];
      }
      assert deltas[..|deltas|] == deltas;
    }
  }

  // ---------- Only the fragments of an index matter to it ----------

  function Only(deltas: seq<Delta>, i: int): seq<Delta> {
    if deltas == [] then []
    else
      var d := deltas[|deltas| - 1];
      Only(deltas[..|deltas| - 1], i) + if d.Delta? && d.index == i then [d] else []
  }

  lemma AccumulatedSnoc(slots: Slots, deltas: seq<Delta>, d: Delta)
    ensures Accumulated(slots, deltas + [d]) == Absorb(Accumulated(slots, deltas), d)
  {
    assert (deltas + [d])[..|deltas|] == deltas;
  }

  lemma AbsorbOther(slots: Slots, d: Delta, i: int)
    requires d.Delta? ==> d.index != i
    ensures (i in Absorb(slots, d) <==> i in slots) && SlotOf(Absorb(slots, d), i) == SlotOf(slots, i)
  {
  }

  lemma AbsorbOwn(x: Slots, y: Slots, d: Delta)
    requires d.Delta? && SlotOf(x, d.index) == SlotOf(y, d.index)
    ensures d.index in Absorb(x, d) && d.index in Absorb(y, d)
    ensures SlotOf(Absorb(x, d), d.index) == SlotOf(Absorb(y, d), d.index)
  {
  }

  /** An index's slot is what its own fragments make of it, whatever the others do in between. */
  lemma {:induction false} SlotNeedsOnlyItsOwn(slots: Slots, deltas: seq<Delta>, i: int)
    ensures SlotOf(Accumulated(slots, deltas), i) == SlotOf(Accumulated(slots, Only(deltas, i)), i)
    ensures i in Accumulated(slots, deltas) <==> i in slots || Only(deltas, i) != []
  {
    hide Absorb, SlotOf;
    if deltas != [] {
      var init, d := deltas[..|deltas| - 1], deltas[|deltas| - 1];
      SlotNeedsOnlyItsOwn(slots, init, i);
      if d.Delta? && d.index == i {
        AccumulatedSnoc(slots, Only(init, i), d);
        AbsorbOwn(Accumulated(slots, init), Accumulated(slots, Only(init, i)), d);
      } else {
        assert Only(deltas, i) == Only(init, i);
        AbsorbOther(Accumulated(slots, init), d, i);
      }
    }
  }

  /** The same indices are filled, each with the same slot. */
  ghost predicate SameSlots(x: Slots, y: Slots) {
    forall i :: (i in x <==> i in y) && SlotOf(x, i) == SlotOf(y, i)
  }

  /** Two streams with the same fragments per index, interleaved in any way, fill the same slots. */
  lemma InterleavingDoesNotMatter(slots: Slots, a: seq<Delta>, b: seq<Delta>)
    requires forall i :: Only(a, i) == Only(b, i)
    ensures SameSlots(Accumulated(slots, a), Accumulated(slots, b))
  {
    forall i
      ensures i in Accumulated(slots, a) <==> i in Accumulated(slots, b)
      ensures SlotOf(Accumulated(slots, a), i) == SlotOf(Accumulated(slots, b), i)
    {
      hide Accumulated, SlotOf;
      SlotNeedsOnlyItsOwn(slots, a, i);
      SlotNeedsOnlyItsOwn(slots, b, i);
    }
  }

  /** How the fragments are cut into chunks of the stream does not matter either. */
  lemma {:induction false} ChunkingDoesNotMatter(slots: Slots, a: seq<Delta>, b: seq<Delta>)
    ensures Accumulated(slots, a + b) == Accumulated(Accumulated(slots, a), b)
  {
    if b == [] {
      assert a + b == a;
    } else {
      var n := |b| - 1;
      ChunkingDoesNotMatter(slots, a, b[..n]);
      assert (a + b)[..|a| + n] == a + b[..n];
    }
  }

  function ArgumentsOf(d: Delta): string {
    if d.Delta? && d.call.Some? && d.call.value.arguments.Some? then d.call.value.arguments.value else ""
  }

  /** The argument fragments of an index, in order. */
  function ArgumentParts(deltas: seq<Delta>, i: int): seq<string> {
    if deltas == [] then []
    else
      var d := deltas[|deltas| - 1];
      ArgumentParts(deltas[..|deltas| - 1], i) + if d.Delta? && d.index == i then [ArgumentsOf(d)] else []
  }

  /** The last non-empty id given to an index. */
  function LastId(deltas: seq<Delta>, i: int): string {
    if deltas == [] then ""
    else
      var d := deltas[|deltas| - 1];
      if d.Delta? && d.index == i && d.id != "" then d.id else LastId(deltas[..|deltas| - 1], i)
  }

  function LastName(deltas: seq<Delta>, i: int): string {
    if deltas == [] then ""
    else
      var d := deltas[|deltas| - 1];
      if d.Delta? && d.index == i && d.call.Some? && d.call.value.name != "" then d.call.value.name
      else LastName(deltas[..|deltas| - 1], i)
  }

  /** A slot holds the last id, the last name, and every argument fragment joined in order. */
  lemma {:induction false} SlotIsLastAndJoined(deltas: seq<Delta>, i: int)
    ensures SlotOf(Accumulated(map[], deltas), i) ==
            Slot(LastId(deltas, i), LastName(deltas, i), Concat(ArgumentParts(deltas, i)))
  {
    if deltas != [] {
      var init, d := deltas[..|deltas| - 1], deltas[|deltas| - 1];
      SlotIsLastAndJoined(init, i);
      if d.Delta? && d.index == i {
        ConcatSnoc(ArgumentParts(init, i), ArgumentsOf(d));
        var joined := Concat(ArgumentParts(init, i));
        assert joined + "" == joined;
      } else {
        assert ArgumentParts(deltas, i) == ArgumentParts(init, i);
      }
    }
  }

  // ---------- From slots to blocks ----------

  datatype Json = Object(text: string) | Other(text: string)

  datatype ToolInput = EmptyInput | Decoded(text: string) | PartialJson(raw: string) | WrappedValue(text: string)

  datatype ToolBlock = ToolBlock(id: string, name: string, input: ToolInput)

  function InputOf(raw: string, decode: string -> Option<Json>): ToolInput {
    if Strip(raw) == "" then EmptyInput
    else
      match decode(raw)
      case None => PartialJson(raw)
      case Some(Object(text)) => Decoded(text)
      case Some(Other(text)) => WrappedValue(text)
  }

  function BlockOf(i: int, slot: Slot, decode: string -> Option<Json>): Option<ToolBlock> {
    var name := Strip(slot.name);
    var id := if Strip(slot.id) != "" then Strip(slot.id) else "tool_" + SignedDec(i);
    if name == "" then None else Some(ToolBlock(id, name, InputOf(slot.arguments, decode)))
  }

  predicate Increasing(xs: seq<int>) {
    forall i, j | 0 <= i < j < |xs| :: xs[i] < xs[j]
  }

  /** `sorted(keys)`, by repeatedly taking the least. */
  method SortedKeys(keys: set<int>) returns (order: seq<int>)
    ensures Increasing(order) && forall k :: k in keys <==> k in order
  {
    order := [];
    var rest := keys;
    while rest != {}
      invariant rest <= keys && Increasing(order)
      invariant forall k | k in keys :: k in rest <==> k !in order
      invariant forall k | k in order :: k in keys
      invariant forall i, k | 0 <= i < |order| && k in rest :: order[i] < k
      decreases |rest|
    {
      var least := Least(rest);
      order := order + [least];
      rest := rest - {least};
    }
  }

  method Any<T>(s: set<T>) returns (x: T)
    requires s != {}
    ensures x in s
  {
    x :| x in s;
  }

  method Least(keys: set<int>) returns (least: int)
    requires keys != {}
    ensures least in keys && forall k | k in keys :: least <= k
  {
    least := Any(keys);
    var rest := keys - {least};
    while rest != {}
      invariant rest <= keys && least in keys
      invariant forall k | k in keys && k !in rest :: least <= k
      decreases |rest|
    {
      var k := Any(rest);
      if k < least {
        least := k;
      }
      rest := rest - {k};
    }
  }

  /** The named slots among some indices, as blocks in the same order. */
  function BlocksAt(slots: Slots, order: seq<int>, decode: string -> Option<Json>): seq<ToolBlock>
    requires forall i | i in order :: i in slots
  {
    if order == [] then []
    else
      var i := order[|order| - 1];
      var b := BlockOf(i, slots[i], decode);
      BlocksAt(slots, order[..|order| - 1], decode) + if b.Some? then [b.value] else []
  }

  /** The indices of the slots, in strictly increasing order. */
  ghost predicate IndexOrder(order: seq<int>, slots: Slots) {
    Increasing(order) && forall i :: i in order <==> i in slots
  }

  /** One block per named slot, in increasing order of index. */
  method SlotsToBlocks(slots: Slots, decode: string -> Option<Json>) returns (blocks: seq<ToolBlock>)
    ensures exists order :: IndexOrder(order, slots)
    ensures forall order | IndexOrder(order, slots) :: blocks == BlocksAt(slots, order, decode)
  {
    blocks := [];
    var sorted := SortedKeys(slots.Keys);
    assert IndexOrder(sorted, slots);
    for n := 0 to |sorted|
      invariant blocks == BlocksAt(slots, sorted[..n], decode)
    {
      assert sorted[..n + 1][..n] == sorted[..n] && sorted[n] in sorted;
      var slot := slots[sorted[n]];
      var name := Strip(slot.name);
      var id := if Strip(slot.id) != "" then Strip(slot.id) else "tool_" + SignedDec(sorted[n]);
      if name == "" {
        continue;
      }
      blocks := blocks + [ToolBlock(id, name, InputOf(slot.arguments, decode))];
    }
    assert sorted[..|sorted|] == sorted;
    forall order | IndexOrder(order, slots)
      ensures order == sorted
    {
      IncreasingIsUnique(order, sorted);
    }
  }

  /** Sorting leaves no choice: there is one increasing order of a set of indices. */
  lemma {:induction false} IncreasingIsUnique(a: seq<int>, b: seq<int>)
    requires Increasing(a) && Increasing(b) && forall k :: k in a <==> k in b
    ensures a == b
  {
    FirstIn(a);
    FirstIn(b);
    if a != [] {
      var m, n := |a| - 1, |b| - 1;
      assert a[m] in a && b[n] in b;
      assert a[m] in b && b[n] in a;
      assert a[m] == b[n];
      forall k
        ensures k in a[..m] <==> k in b[..n]
      {
        LastApart(a, k);
        LastApart(b, k);
      }
      IncreasingIsUnique(a[..m], b[..n]);
      assert a == a[..m] + [a[m]] && b == b[..n] + [b[n]];
    }
  }

  lemma FirstIn(xs: seq<int>)
    ensures xs != [] ==> xs[0] in xs
  {
  }

  lemma InInit<T>(xs: seq<T>, x: T)
    requires xs != []
    ensures x in xs <==> x in xs[..|xs| - 1] || x == xs[|xs| - 1]
  {
    assert xs == xs[..|xs| - 1] + [xs[|xs| - 1]];
  }

  lemma LastApart(xs: seq<int>, x: int)
    requires Increasing(xs) && xs != []
    ensures x in xs[..|xs| - 1] <==> x in xs && x != xs[|xs| - 1]
  {
    InInit(xs, x);
  }

  /** Every block has an id and a name. */
  lemma {:induction false} BlocksAreUsable(slots: Slots, order: seq<int>, decode: string -> Option<Json>)
    requires forall i | i in order :: i in slots
    ensures forall b | b in BlocksAt(slots, order, decode) :: b.id != "" && b.name != ""
  {
    if order != [] {
      BlocksAreUsable(slots, order[..|order| - 1], decode);
    }
  }

  lemma {:induction false} SameSlotsSameBlocks(x: Slots, y: Slots, order: seq<int>, decode: string -> Option<Json>)
    requires SameSlots(x, y) && forall i | i in order :: i in x
    ensures forall i | i in order :: i in y
    ensures BlocksAt(x, order, decode) == BlocksAt(y, order, decode)
  {
    if order != [] {
      var i := order[|order| - 1];
      assert i in order && SlotOf(x, i) == SlotOf(y, i);
      SameSlotsSameBlocks(x, y, order[..|order| - 1], decode);
    }
  }

  /** From fragments to blocks: only the fragments of each index count, in their own order. */
  lemma BlocksNeedOnlyProjections(a: seq<Delta>, b: seq<Delta>, p: seq<int>, q: seq<int>, decode: string -> Option<Json>)
    requires forall i :: Only(a, i) == Only(b, i)
    requires IndexOrder(p, Accumulated(map[], a)) && IndexOrder(q, Accumulated(map[], b))
    ensures BlocksAt(Accumulated(map[], a), p, decode) == BlocksAt(Accumulated(map[], b), q, decode)
  {
    InterleavingDoesNotMatter(map[], a, b);
    IncreasingIsUnique(p, q);
    SameSlotsSameBlocks(Accumulated(map[], a), Accumulated(map[], b), p, decode);
  }

  // ---------- What a stream's blocks say ----------

  /** The last name given to an index, without white space around it: a block needs one. */
  predicate NamedIn(deltas: seq<Delta>, i: int) { Strip(LastName(deltas, i)) != "" }

  /**
   A block says what the fragments of its index said: the last name, the last id or a number in its
   place, and as input the joined arguments: nothing if blank, the raw text if they cannot be
   decoded, and wrapped if they are no object.
   */
  predicate SaysSo(b: ToolBlock, deltas: seq<Delta>, i: int, decode: string -> Option<Json>) {
    var raw := Concat(ArgumentParts(deltas, i));
    && b.name == Strip(LastName(deltas, i))
    && (Strip(LastId(deltas, i)) != "" ==> b.id == Strip(LastId(deltas, i)))
    && (Strip(LastId(deltas, i)) == "" ==> b.id == "tool_" + SignedDec(i))
    && (b.input == EmptyInput <==> Strip(raw) == "")
    && (b.input.PartialJson? <==> Strip(raw) != "" && decode(raw).None?)
    && (b.input.PartialJson? ==> b.input.raw == raw)
    && (b.input.Decoded? ==> decode(raw) == Some(Object(b.input.text)))
    && (b.input.WrappedValue? ==> decode(raw) == Some(Other(b.input.text)))
  }

  lemma BlockSaysSo(deltas: seq<Delta>, i: int, decode: string -> Option<Json>)
    ensures var b := BlockOf(i, SlotOf(Accumulated(map[], deltas), i), decode);
            if NamedIn(deltas, i) then b.Some? && SaysSo(b.value, deltas, i, decode) else b.None?
  {
    hide Accumulated, LastId, LastName, ArgumentParts, Strip, Concat, SignedDec, SlotOf;
    SlotIsLastAndJoined(deltas, i);
  }

  /** `at` lists, in order, the positions of `order` that hold a named slot, and `blocks` their blocks. */
  predicate Lists(
      at: seq<nat>, slots: Slots, order: seq<int>, decode: string -> Option<Json>, blocks: seq<ToolBlock>)
    requires forall i | i in order :: i in slots
  {
    && |at| == |blocks| && (forall i, j | 0 <= i < j < |at| :: at[i] < at[j])
    && (forall j | 0 <= j < |at| ::
          at[j] < |order| && BlockOf(order[at[j]], slots[order[at[j]]], decode) == Some(blocks[j]))
    && forall k: nat | k < |order| && BlockOf(order[k], slots[order[k]], decode).Some? :: k in at
  }

  lemma ListsOn(
      at: seq<nat>, slots: Slots, order: seq<int>, i: int, decode: string -> Option<Json>, blocks: seq<ToolBlock>)
    requires (forall k | k in order :: k in slots) && i in slots && Lists(at, slots, order, decode, blocks)
    ensures forall k | k in order + [i] :: k in slots
    ensures var b := BlockOf(i, slots[i], decode);
            if b.Some? then Lists(at + [|order|], slots, order + [i], decode, blocks + [b.value])
            else Lists(at, slots, order + [i], decode, blocks)
  {
    hide BlockOf;
    var longer, more, b := order + [i], at + [|order|], BlockOf(i, slots[i], decode);
    assert longer[|order|] == i && more[|at|] == |order|;
    forall k: nat | k < |longer| && BlockOf(longer[k], slots[longer[k]], decode).Some?
      ensures k in if b.Some? then more else at
    {
      if k < |order| {
        assert longer[k] == order[k] && k in at;
      }
    }
  }

  lemma {:induction false} BlocksInOrder(slots: Slots, order: seq<int>, decode: string -> Option<Json>) returns (at: seq<nat>)
    requires forall i | i in order :: i in slots
    ensures Lists(at, slots, order, decode, BlocksAt(slots, order, decode))
  {
    hide BlockOf, Lists;
    if order == [] {
      at := [];
      NothingListed(slots, decode);
    } else {
      var n := |order| - 1;
      at := BlocksInOrder(slots, order[..n], decode);
      assert order == order[..n] + [order[n]];
      ListsOn(at, slots, order[..n], order[n], decode, BlocksAt(slots, order[..n], decode));
      assert BlocksAt(slots, order[..n], decode) + [] == BlocksAt(slots, order[..n], decode);
      at := if BlockOf(order[n], slots[order[n]], decode).Some? then at + [n] else at;
    }
  }

  lemma NothingListed(slots: Slots, decode: string -> Option<Json>)
    ensures Lists([], slots, [], decode, [])
  {
  }

  /**
   From a whole stream: one block for every index that was named, in increasing order, and each says
   what the fragments of its index said.
   */
  lemma BlocksSaySo(deltas: seq<Delta>, order: seq<int>, decode: string -> Option<Json>) returns (at: seq<nat>)
    requires IndexOrder(order, Accumulated(map[], deltas))
    ensures var blocks := BlocksAt(Accumulated(map[], deltas), order, decode);
            && |at| == |blocks| && (forall i, j | 0 <= i < j < |at| :: at[i] < at[j])
            && (forall j | 0 <= j < |at| ::
                  at[j] < |order| && NamedIn(deltas, order[at[j]]) && SaysSo(blocks[j], deltas, order[at[j]], decode))
            && (forall k: nat | k < |order| && NamedIn(deltas, order[k]) :: k in at)
  {
    hide Accumulated, BlockOf, BlocksAt, SaysSo, NamedIn;
    var slots := Accumulated(map[], deltas);
    at := BlocksInOrder(slots, order, decode);
    forall i | i in order
      ensures var b := BlockOf(i, slots[i], decode);
              if NamedIn(deltas, i) then b.Some? && SaysSo(b.value, deltas, i, decode) else b.None?
    {
      BlockSaysSo(deltas, i, decode);
      SlotIn(slots, i);
    }
    assert forall j | 0 <= j < |at| :: order[at[j]] in order;
    assert forall k: nat | k < |order| :: order[k] in order;
  }

  lemma SlotIn(slots: Slots, i: int)
    requires i in slots
    ensures SlotOf(slots, i) == slots[i]
  {
  }
}
