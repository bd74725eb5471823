/** The example's main loop: it draws when the buffer's redraw flag is set and
    then clears it, then feeds every pending window event through the input
    mapper, keeping the pointer state in three variables. */
module Driver {
  import opened Events
  import opened InputMapper
  import opened EditorSink

  /** Whether the process is still running, or has exited with a status code. */
  datatype Status = Running | Exited(code: int)

  /** The number of draws over successive loop iterations, iteration `i`
      handling the events of poll `batches[i]`. An iteration first shapes the
      buffer, then draws exactly when the flag is set: it was set as the
      iteration started (for the first one `dirty`, for later ones whether
      the previous iteration's calls marked the buffer) or shaping marked it.
      `history` is what the editor has received so far. No iteration runs
      after a Quit. */
  function DrawCount(dirty: bool, history: seq<Call>, p: Pointer, batches: seq<seq<Event>>, marks: Policy): (n: nat)
    ensures n <= |batches|
    ensures n == 0 ==> batches == [] || !(dirty || marks(history, Shape))
    decreases |batches|
  {
    if batches == [] then 0
    else
      var shaped := history + [Shape];
      var r := Process(p, batches[0]);
      (if dirty || marks(history, Shape) then 1 else 0)
        + (if r.quit then 0
           else DrawCount(Marked(shaped, r.calls, marks), shaped + r.calls, r.next, batches[1..], marks))
  }

  /** DrawCount over the polls from `k` on, one iteration unfolded. */
  lemma DrawCountStep(dirty: bool, history: seq<Call>, p: Pointer, batches: seq<seq<Event>>, k: nat, marks: Policy)
    requires k < |batches|
    ensures var shaped := history + [Shape];
      var r := Process(p, batches[k]);
      DrawCount(dirty, history, p, batches[k..], marks) ==
        (if dirty || marks(history, Shape) then 1 else 0)
          + (if r.quit then 0
             else DrawCount(Marked(shaped, r.calls, marks), shaped + r.calls, r.next, batches[k + 1..], marks))
  {
    assert batches[k..][0] == batches[k];
    assert batches[k..][1..] == batches[k + 1..];
  }

  /** The redraw flag after successive loop iterations over `batches`, with
      the flag `dirty` and the history `history` as they start: each
      iteration clears the flag by drawing or finds it clear, so afterwards
      it is set exactly when the iteration's calls marked the buffer. */
  function FinalDirty(dirty: bool, history: seq<Call>, p: Pointer, batches: seq<seq<Event>>, marks: Policy): bool
    decreases |batches|
  {
    if batches == [] then dirty
    else
      var shaped := history + [Shape];
      var r := Process(p, batches[0]);
      var marked := Marked(shaped, r.calls, marks);
      if r.quit then marked else FinalDirty(marked, shaped + r.calls, r.next, batches[1..], marks)
  }

  /** FinalDirty over the polls from `k` on, one iteration unfolded. */
  lemma FinalDirtyStep(dirty: bool, history: seq<Call>, p: Pointer, batches: seq<seq<Event>>, k: nat, marks: Policy)
    requires k < |batches|
    ensures var shaped := history + [Shape];
      var r := Process(p, batches[k]);
      var marked := Marked(shaped, r.calls, marks);
      FinalDirty(dirty, history, p, batches[k..], marks) ==
        if r.quit then marked else FinalDirty(marked, shaped + r.calls, r.next, batches[k + 1..], marks)
  {
    assert batches[k..][0] == batches[k];
    assert batches[k..][1..] == batches[k + 1..];
  }

  /** If no library call ever asks for a redraw, whatever the editor received
      before, the loop draws at most once: in its first iteration, and only if
      the flag was set at startup. */
  lemma {:induction false} DrawsOnlyWhenMarked(dirty: bool, history: seq<Call>, p: Pointer, batches: seq<seq<Event>>, marks: Policy)
    requires forall g, c :: !marks(g, c)
    ensures DrawCount(dirty, history, p, batches, marks) == if dirty && batches != [] then 1 else 0
    decreases |batches|
  {
    if batches != [] {
      var shaped := history + [Shape];
      var r := Process(p, batches[0]);
      if !r.quit {
        UnmarkedCalls(shaped, r.calls, marks);
        DrawsOnlyWhenMarked(false, shaped + r.calls, r.next, batches[1..], marks);
      }
    }
  }

  /** The calls the editor receives over successive iterations: each
      iteration shapes the buffer and then makes the calls of its poll's
      events. No iteration runs after a Quit. */
  function Received(p: Pointer, batches: seq<seq<Event>>): seq<Call>
    decreases |batches|
  {
    if batches == [] then []
    else
      var init := batches[..|batches| - 1];
      var r := Process(p, Flatten(init));
      if r.quit then Received(p, init)
      else Received(p, init) + [Shape] + Process(r.next, batches[|batches| - 1]).calls
  }

  lemma ReceivedSnoc(p: Pointer, batches: seq<seq<Event>>, k: nat)
    requires k < |batches| && !Process(p, Flatten(batches[..k])).quit
    ensures Received(p, batches[..k + 1]) ==
      Received(p, batches[..k]) + [Shape] + Process(Process(p, Flatten(batches[..k])).next, batches[k]).calls
  {
    assert batches[..k + 1][..k] == batches[..k];
  }

  /** Once the events of the first `k` polls have quit, or `k` is all of the
      polls, the later polls send the editor nothing. */
  lemma {:induction false} ReceivedStop(p: Pointer, batches: seq<seq<Event>>, k: nat)
    requires k <= |batches|
    requires k == |batches| || Process(p, Flatten(batches[..k])).quit
    ensures Received(p, batches) == Received(p, batches[..k])
    decreases |batches|
  {
    if k == |batches| {
      assert batches[..k] == batches;
    } else {
      var init := batches[..|batches| - 1];
      assert init[..k] == batches[..k];
      StopAtPoll(p, init, k);
      ReceivedStop(p, init, k);
    }
  }

  /** Received over one more poll, with the stream's calls split the same way. */
  lemma ReceivedStep(p: Pointer, batches: seq<seq<Event>>)
    requires batches != []
    ensures var init := batches[..|batches| - 1];
      var r := Process(p, Flatten(init));
      var step := Process(r.next, batches[|batches| - 1]);
      var whole := Process(p, Flatten(batches));
      && (r.quit ==> Received(p, batches) == Received(p, init) && whole == r)
      && (!r.quit ==>
            && Received(p, batches) == (Received(p, init) + [Shape]) + step.calls
            && whole.calls == r.calls + step.calls)
  {
    var init := batches[..|batches| - 1];
    assert Flatten(batches) == Flatten(init) + batches[|batches| - 1];
    ProcessAppend(p, Flatten(init), batches[|batches| - 1]);
  }

  /** Shaping passes aside, the editor receives over the iterations exactly
      the actions of all the events handled as one stream, in the same order. */
  lemma {:induction false} ReceivedActions(p: Pointer, batches: seq<seq<Event>>)
    ensures Actions(Received(p, batches)) == Actions(Process(p, Flatten(batches)).calls)
    decreases |batches|
  {
    if batches != [] {
      var init := batches[..|batches| - 1];
      var r := Process(p, Flatten(init));
      var step := Process(r.next, batches[|batches| - 1]);
      ReceivedStep(p, batches);
      ReceivedActions(p, init);
      if !r.quit {
        var before := Received(p, init);
        ActionsAppend(before + [Shape], step.calls);
        ActionsAppend(before, [Shape]);
        ActionsAppend(r.calls, step.calls);
      }
    }
  }

  /** Shaping passes aside, the final buffer size is that of all the events
      handled as one stream. */
  lemma {:induction false} ReceivedSize(p: Pointer, batches: seq<seq<Event>>, s: Size)
    ensures FinalSize(Received(p, batches), s) == FinalSize(Process(p, Flatten(batches)).calls, s)
    decreases |batches|
  {
    if batches != [] {
      var init := batches[..|batches| - 1];
      var r := Process(p, Flatten(init));
      var step := Process(r.next, batches[|batches| - 1]);
      ReceivedStep(p, batches);
      ReceivedSize(p, init, s);
      if !r.quit {
        var before := Received(p, init);
        FinalSizeAppend(before + [Shape], step.calls, s);
        FinalSizeAppend(before, [Shape], s);
        FinalSizeAppend(r.calls, step.calls, s);
      }
    }
  }

  lemma AppendAssoc<T>(a: seq<T>, b: seq<T>, c: seq<T>)
    ensures (a + b) + c == a + (b + c)
  {
  }

  class RenderLoop {
    const editor: Editor
    var mouseX: I32
    var mouseY: I32
    var mouseLeft: bool
    /** Completed draws: clear, draw the glyphs, sync the window. */
    var draws: nat
    var status: Status

    /** The loop's state as it is entered: pointer at (-1, -1), button up. */
    constructor (editor: Editor)
      ensures this.editor == editor
      ensures Input() == START && draws == 0 && status == Running
    {
      this.editor := editor;
      mouseX, mouseY, mouseLeft := -1, -1, false;
      draws := 0;
      status := Running;
    }

    function Input(): Pointer
      reads this
    {
      Pointer(mouseX, mouseY, mouseLeft)
    }

    /** The pointer state, the buffer size and the process status are what
        the reaction `r` leaves, starting from the size `s0`. */
    ghost predicate Leaves(s0: Size, r: Reaction)
      reads this, editor
    {
      && Input() == r.next
      && editor.BufferSize() == FinalSize(r.calls, s0)
      && status == (if r.quit then Exited(0) else Running)
    }

    /** As Leaves, and the editor has received the calls of `r` after `h0`. */
    ghost predicate Reflects(h0: seq<Call>, s0: Size, r: Reaction)
      reads this, editor
    {
      Leaves(s0, r) && editor.history == h0 + r.calls
    }

    /** One arm of the event match. */
    method HandleEvent(e: Event)
      requires status == Running
      modifies this, editor
      ensures Reflects(old(editor.history), old(editor.BufferSize()), Dispatch(old(Input()), e))
      ensures editor.redraw ==
        (old(editor.redraw) || Marked(old(editor.history), Dispatch(old(Input()), e).calls, editor.marks))
      ensures draws == old(draws)
    {
      match e
      case Key(_, scancode, pressed) =>
        var action := KeyAction(scancode, pressed);
        if action.Some? {
          editor.Apply(action.value);
        }
      case TextInput(c) =>
        editor.Apply(Insert(c));
      case Mouse(x, y) =>
        mouseX := x;
        mouseY := y;
        if mouseLeft {
          editor.Apply(Drag(mouseX, mouseY));
        }
      case Button(left, _, _) =>
        mouseLeft := left;
        if mouseLeft {
          editor.Apply(Click(mouseX, mouseY));
        }
      case Resize(width, height) =>
        editor.SetSize(width, height);
      case Quit =>
        status := Exited(0);
      case Other =>
    }

    /** The loop over the events of one poll, in arrival order, until a Quit. */
    method DispatchEvents(events: seq<Event>)
      requires status == Running
      modifies this, editor
      ensures Reflects(old(editor.history), old(editor.BufferSize()), Process(old(Input()), events))
      ensures editor.redraw ==
        (old(editor.redraw) || Marked(old(editor.history), Process(old(Input()), events).calls, editor.marks))
      ensures draws == old(draws)
    {
      ghost var p0, h0, s0, r0 := Input(), editor.history, editor.BufferSize(), editor.redraw;
      var i := 0;
      while i < |events| && status == Running
        invariant 0 <= i <= |events|
        invariant Reflects(h0, s0, Process(p0, events[..i]))
        invariant editor.redraw == (r0 || Marked(h0, Process(p0, events[..i]).calls, editor.marks))
        invariant draws == old(draws)
      {
        ghost var before := Process(p0, events[..i]);
        ghost var step := Dispatch(before.next, events[i]);
        ghost var whole := Process(p0, events[..i + 1]);
        assert && whole.next == step.next && whole.quit == step.quit
          && h0 + whole.calls == (h0 + before.calls) + step.calls
          && FinalSize(whole.calls, s0) == FinalSize(step.calls, FinalSize(before.calls, s0))
          && (Marked(h0, whole.calls, editor.marks) <==>
                Marked(h0, before.calls, editor.marks) || Marked(h0 + before.calls, step.calls, editor.marks))
        by {
          ExtendByOne(p0, events, i, h0, s0, editor.marks);
          AppendAssoc(h0, before.calls, step.calls);
        }
        HandleEvent(events[i]);
        i := i + 1;
      }
      StopAt(p0, events, i);
    }

    /** Draw if the flag is set, then clear the flag. */
    method DrawIfNeeded()
      modifies this, editor
      ensures draws == old(draws) + (if old(editor.redraw) then 1 else 0)
      ensures !editor.redraw
      ensures Input() == old(Input()) && status == old(status)
      ensures editor.history == old(editor.history) && editor.BufferSize() == old(editor.BufferSize())
    {
      if editor.redraw {
        draws := draws + 1;
        editor.SetRedraw(false);
      }
    }

    /** One iteration of the main loop: shape, draw if needed, then handle a poll. */
    method Frame(events: seq<Event>)
      requires status == Running
      modifies this, editor
      ensures draws == old(draws) + (if old(editor.redraw) || editor.marks(old(editor.history), Shape) then 1 else 0)
      ensures Reflects(old(editor.history) + [Shape], old(editor.BufferSize()), Process(old(Input()), events))
      ensures editor.redraw == Marked(old(editor.history) + [Shape], Process(old(Input()), events).calls, editor.marks)
    {
      editor.ShapeAsNeeded();
      DrawIfNeeded();
      DispatchEvents(events);
    }

    /** What Run keeps after the first `k` polls of `batches`, against the
        state `p0`, `h0`, `s0` it started from, the draws `base` made before
        it, and its totals `total` and `last`: the state is that of the
        events handled so far as one stream, and while the process runs, the
        remaining polls account for the rest of the draws and the final flag. */
    ghost predicate Progress(batches: seq<seq<Event>>, k: nat, p0: Pointer, h0: seq<Call>, s0: Size,
                             base: nat, total: nat, last: bool)
      reads this, editor
    {
      && k <= |batches|
      && Leaves(s0, Process(p0, Flatten(batches[..k])))
      && editor.history == h0 + Received(p0, batches[..k])
      && (status == Running ==>
            && draws + DrawCount(editor.redraw, editor.history, Input(), batches[k..], editor.marks) == base + total
            && FinalDirty(editor.redraw, editor.history, Input(), batches[k..], editor.marks) == last)
      && (status != Running ==> draws == base + total && editor.redraw == last)
    }

    /** One pass of Run's loop: the iteration for poll `k`, and why it keeps Progress. */
    method RunIteration(batches: seq<seq<Event>>, k: nat, ghost p0: Pointer, ghost h0: seq<Call>, ghost s0: Size,
                        ghost base: nat, ghost total: nat, ghost last: bool)
      requires k < |batches| && status == Running
      requires Progress(batches, k, p0, h0, s0, base, total, last)
      modifies this, editor
      ensures Progress(batches, k + 1, p0, h0, s0, base, total, last)
    {
      ghost var before := Process(p0, Flatten(batches[..k]));
      ghost var step := Process(before.next, batches[k]);
      ghost var dirty, hk := editor.redraw, editor.history;
      DrawCountStep(dirty, hk, before.next, batches, k, editor.marks);
      FinalDirtyStep(dirty, hk, before.next, batches, k, editor.marks);
      ghost var whole := Process(p0, Flatten(batches[..k + 1]));
      assert whole.next == step.next && whole.quit == step.quit
        && FinalSize(whole.calls, s0) == FinalSize(step.calls, FinalSize(before.calls, s0))
      by {
        FlattenSnoc(batches, k);
        Extend(p0, Flatten(batches[..k]), batches[k], h0, s0, editor.marks);
      }
      assert h0 + Received(p0, batches[..k + 1]) == hk + [Shape] + step.calls by {
        ReceivedSnoc(p0, batches, k);
        AppendAssoc(h0, Received(p0, batches[..k]), [Shape]);
        AppendAssoc(h0, Received(p0, batches[..k]) + [Shape], step.calls);
      }
      Frame(batches[k]);
    }

    /** The main loop over successive polls, until a Quit ends the process.
        Splitting the events into polls changes neither the pointer state,
        nor the actions, nor the size: they are those of all the events
        handled as one stream. */
    method Run(batches: seq<seq<Event>>)
      requires status == Running
      modifies this, editor
      ensures Leaves(old(editor.BufferSize()), Process(old(Input()), Flatten(batches)))
      ensures editor.history == old(editor.history) + Received(old(Input()), batches)
      ensures Actions(editor.history) ==
        Actions(old(editor.history)) + Actions(Process(old(Input()), Flatten(batches)).calls)
      ensures draws ==
        old(draws) + DrawCount(old(editor.redraw), old(editor.history), old(Input()), batches, editor.marks)
      ensures editor.redraw ==
        FinalDirty(old(editor.redraw), old(editor.history), old(Input()), batches, editor.marks)
    {
      ghost var p0, h0, s0, r0 := Input(), editor.history, editor.BufferSize(), editor.redraw;
      ghost var total := DrawCount(r0, h0, p0, batches, editor.marks);
      ghost var last := FinalDirty(r0, h0, p0, batches, editor.marks);
      var k := 0;
      assert batches[k..] == batches;
      assert batches[..k] == [];
      while k < |batches| && status == Running
        invariant Progress(batches, k, p0, h0, s0, old(draws), total, last)
      {
        RunIteration(batches, k, p0, h0, s0, old(draws), total, last);
        k := k + 1;
      }
      StopAtPoll(p0, batches, k);
      ReceivedStop(p0, batches, k);
      assert k == |batches| ==> batches[k..] == [];
      ReceivedActions(p0, batches);
      ActionsAppend(h0, Received(p0, batches));
    }
  }
}
