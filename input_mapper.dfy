/** The input mapper as a pure specification: how one raw event, and then a
    stream of them, turns into calls on the editor, given the pointer state
    (last pointer position, left button held) that the driver keeps. */
module InputMapper {
  import opened Events

  /** The driver's auxiliary input state: `mouse_x`, `mouse_y`, `mouse_left`. */
  datatype Pointer = Pointer(x: I32, y: I32, left: bool)

  /** The pointer state at startup, before any event has arrived. */
  const START: Pointer := Pointer(-1, -1, false)

  /** What handling some events amounts to: the pointer state afterwards, the
      calls made, in order, and whether a Quit ended the process. */
  datatype Reaction = Reaction(next: Pointer, calls: seq<Call>, quit: bool)

  /** One arm of the driver's event match. */
  function Dispatch(p: Pointer, e: Event): (r: Reaction)
    ensures |r.calls| <= 1
    ensures r.quit <==> e.Quit?
  {
    match e
    case Key(_, scancode, pressed) =>
      var calls := match KeyAction(scancode, pressed)
        case Some(a) => [Act(a)]
        case None => [];
      Reaction(p, calls, false)
    case TextInput(c) => Reaction(p, [Act(Insert(c))], false)
    case Mouse(x, y) =>
      Reaction(Pointer(x, y, p.left), if p.left then [Act(Drag(x, y))] else [], false)
    case Button(left, _, _) =>
      Reaction(p.(left := left), if left then [Act(Click(p.x, p.y))] else [], false)
    case Resize(width, height) => Reaction(p, [SizeSet(width, height)], false)
    case Quit => Reaction(p, [], true)
    case Other => Reaction(p, [], false)
  }

  /** `r` followed by `s`: the calls of both in order, the final state of `s`. */
  function Chain(r: Reaction, s: Reaction): Reaction
  {
    Reaction(s.next, r.calls + s.calls, s.quit)
  }

  /** The driver's inner loop over a stream of events: each event is handled
      in arrival order with the pointer state the previous one left, and a
      Quit ends the process, so nothing after it is handled. */
  function Process(p: Pointer, events: seq<Event>): (r: Reaction)
    ensures r.quit <==> Quit in events
    ensures |r.calls| <= |events|
    decreases |events|
  {
    if events == [] then Reaction(p, [], false)
    else
      var first := Dispatch(p, events[0]);
      if first.quit then first else Chain(first, Process(first.next, events[1..]))
  }

  /** The actions among some calls, in order. */
  function Actions(calls: seq<Call>): (r: seq<Action>)
    ensures |r| <= |calls|
  {
    if calls == [] then []
    else match calls[0]
      case Act(a) => [a] + Actions(calls[1..])
      case SizeSet(_, _) => Actions(calls[1..])
      case Shape => Actions(calls[1..])
  }

  /** The buffer size after some calls, starting from `s`: the last size set. */
  function FinalSize(calls: seq<Call>, s: Size): (r: Size)
    ensures r == s || SizeSet(r.width, r.height) in calls
    ensures (forall c :: c in calls ==> !c.SizeSet?) ==> r == s
  {
    if calls == [] then s
    else match calls[|calls| - 1]
      case SizeSet(width, height) => Size(width, height)
      case Act(_) => FinalSize(calls[..|calls| - 1], s)
      case Shape => FinalSize(calls[..|calls| - 1], s)
  }

  /** Whether some call left the buffer needing a redraw, under the editor's
      policy `marks`, when the editor had received `history` before them. */
  predicate Marked(history: seq<Call>, calls: seq<Call>, marks: Policy)
    decreases |calls|
  {
    calls != [] && (marks(history, calls[0]) || Marked(history + [calls[0]], calls[1..], marks))
  }

  /** The events of successive polls, in arrival order. */
  function Flatten(batches: seq<seq<Event>>): seq<Event>
  {
    if batches == [] then []
    else Flatten(batches[..|batches| - 1]) + batches[|batches| - 1]
  }

  predicate IsPress(e: Event) { e.Button? && e.left }
  predicate IsDrag(c: Call) { c.Act? && c.action.Drag? }
  predicate IsClick(c: Call) { c.Act? && c.action.Click? }

  // ---------------------------------------------------------------------
  // One event at a time

  /** A key event produces at most the action bound to its scancode, and only
      on key-down; it never touches the pointer state. */
  lemma KeyEventMapped(p: Pointer, character: char, scancode: Byte, pressed: bool)
    ensures var r := Dispatch(p, Key(character, scancode, pressed));
      && r.next == p && !r.quit
      && (!pressed ==> r.calls == [])
      && (pressed && scancode !in BOUND_SCANCODES ==> r.calls == [])
      && (forall a :: Binding(a) == Some(scancode) && pressed ==> r.calls == [Act(a)])
  {
  }

  /** Text input is passed on unfiltered as one Insert, pointer state untouched. */
  lemma TextInputInserts(p: Pointer, c: char)
    ensures Dispatch(p, TextInput(c)) == Reaction(p, [Act(Insert(c))], false)
  {
  }

  /** A pointer move always stores the new coordinates, keeps the button
      state, and drags to the new coordinates exactly when the button is held. */
  lemma MouseMoves(p: Pointer, x: I32, y: I32)
    ensures var r := Dispatch(p, Mouse(x, y));
      && r.next == Pointer(x, y, p.left) && !r.quit
      && (r.calls != [] <==> p.left)
      && (p.left ==> r.calls == [Act(Drag(x, y))])
  {
  }

  /** A button event records the left button state, keeps the coordinates,
      and clicks at the previously stored coordinates exactly on a left press. */
  lemma ButtonClicks(p: Pointer, left: bool, middle: bool, right: bool)
    ensures var r := Dispatch(p, Button(left, middle, right));
      && r.next == Pointer(p.x, p.y, left) && !r.quit
      && (r.calls != [] <==> left)
      && (left ==> r.calls == [Act(Click(p.x, p.y))])
  {
  }

  /** Resize only sets the buffer size; Quit and the other kinds do nothing
      but Quit ends the process. */
  lemma ResizeQuitOther(p: Pointer, width: U32, height: U32)
    ensures Dispatch(p, Resize(width, height)) == Reaction(p, [SizeSet(width, height)], false)
    ensures Dispatch(p, Quit) == Reaction(p, [], true)
    ensures Dispatch(p, Other) == Reaction(p, [], false)
  {
  }

  /** Across all event kinds: a Drag comes only from a pointer move while the
      button is held, and carries the move's coordinates. */
  lemma DragOnlyWhileHeld(p: Pointer, e: Event, x: I32, y: I32)
    ensures Act(Drag(x, y)) in Dispatch(p, e).calls <==> e == Mouse(x, y) && p.left
  {
  }

  /** Across all event kinds: a Click comes only from a left press, and carries
      the stored coordinates. */
  lemma ClickOnlyOnPress(p: Pointer, e: Event, x: I32, y: I32)
    ensures Act(Click(x, y)) in Dispatch(p, e).calls <==> IsPress(e) && x == p.x && y == p.y
  {
  }

  /** Only a pointer move changes the coordinates and only a button event the
      button state; only a resize sets the size. */
  lemma StateChangesByKind(p: Pointer, e: Event)
    ensures var r := Dispatch(p, e);
      && ((r.next.x, r.next.y) != (p.x, p.y) ==> e.Mouse?)
      && (r.next.left != p.left ==> e.Button?)
      && (forall c :: c in r.calls && c.SizeSet? ==> e.Resize?)
  {
  }

  // ---------------------------------------------------------------------
  // Streams of events

  /** A stream of one event is handled exactly as that event. */
  lemma ProcessOne(p: Pointer, e: Event)
    ensures Process(p, [e]) == Dispatch(p, e)
  {
  }

  /** Handling `a + b` is handling `a` and then, unless `a` quit, handling `b`
      from the state `a` left: the calls are those of `a` followed by those of
      `b`. So splitting a stream into batches does not change the outcome. */
  lemma {:induction false} ProcessAppend(p: Pointer, a: seq<Event>, b: seq<Event>)
    ensures var r := Process(p, a);
      Process(p, a + b) == if r.quit then r else Chain(r, Process(r.next, b))
    decreases |a|
  {
    if a == [] {
      assert a + b == b;
      var s := Process(p, b);
      assert [] + s.calls == s.calls;
    } else {
      var first := Dispatch(p, a[0]);
      assert (a + b)[0] == a[0];
      assert (a + b)[1..] == a[1..] + b;
      if !first.quit {
        ProcessAppend(first.next, a[1..], b);
      }
    }
  }

  /** Splitting the polls at any point splits their events at the same point. */
  lemma {:induction false} FlattenSplit(batches: seq<seq<Event>>, k: nat)
    requires k <= |batches|
    ensures Flatten(batches) == Flatten(batches[..k]) + Flatten(batches[k..])
    decreases |batches|
  {
    if k == |batches| {
      assert batches[..k] == batches;
      assert batches[k..] == [];
    } else {
      var n := |batches| - 1;
      var init := batches[..n];
      FlattenSplit(init, k);
      assert init[..k] == batches[..k];
      assert batches[k..][..|batches[k..]| - 1] == init[k..];
      assert batches[k..][|batches[k..]| - 1] == batches[n];
    }
  }

  /** What the driver's loops need from ProcessAppend: while `a` has not quit,
      the state, the actions, the final size and the redraw marks of `a + b`
      are those of `a` followed by those of `b`, the redraw marks of `b` being
      judged after the calls of `a`. */
  lemma Extend(p: Pointer, a: seq<Event>, b: seq<Event>, h0: seq<Call>, s0: Size, marks: Policy)
    requires !Process(p, a).quit
    ensures var before := Process(p, a);
      var after := Process(before.next, b);
      var whole := Process(p, a + b);
      && whole.next == after.next && whole.quit == after.quit
      && whole.calls == before.calls + after.calls
      && Actions(whole.calls) == Actions(before.calls) + Actions(after.calls)
      && FinalSize(whole.calls, s0) == FinalSize(after.calls, FinalSize(before.calls, s0))
      && (Marked(h0, whole.calls, marks) <==>
            Marked(h0, before.calls, marks) || Marked(h0 + before.calls, after.calls, marks))
  {
    var before := Process(p, a);
    var after := Process(before.next, b);
    ProcessAppend(p, a, b);
    ActionsAppend(before.calls, after.calls);
    FinalSizeAppend(before.calls, after.calls, s0);
    MarkedAppend(h0, before.calls, after.calls, marks);
  }

  /** One more event of a stream, as the driver's inner loop takes it. */
  lemma ExtendByOne(p: Pointer, events: seq<Event>, i: nat, h0: seq<Call>, s0: Size, marks: Policy)
    requires i < |events| && !Process(p, events[..i]).quit
    ensures var before := Process(p, events[..i]);
      var step := Dispatch(before.next, events[i]);
      var whole := Process(p, events[..i + 1]);
      && whole.next == step.next && whole.quit == step.quit
      && whole.calls == before.calls + step.calls
      && Actions(whole.calls) == Actions(before.calls) + Actions(step.calls)
      && FinalSize(whole.calls, s0) == FinalSize(step.calls, FinalSize(before.calls, s0))
      && (Marked(h0, whole.calls, marks) <==>
            Marked(h0, before.calls, marks) || Marked(h0 + before.calls, step.calls, marks))
  {
    assert events[..i + 1] == events[..i] + [events[i]];
    ProcessOne(Process(p, events[..i]).next, events[i]);
    Extend(p, events[..i], [events[i]], h0, s0, marks);
  }

  /** Once a prefix of a stream has quit, or is the whole stream, the stream
      is handled as that prefix. */
  lemma StopAt(p: Pointer, events: seq<Event>, i: nat)
    requires i <= |events|
    requires i == |events| || Process(p, events[..i]).quit
    ensures Process(p, events) == Process(p, events[..i])
  {
    if i < |events| {
      assert events == events[..i] + events[i..];
      ProcessAppend(p, events[..i], events[i..]);
    } else {
      assert events[..i] == events;
    }
  }

  lemma FlattenSnoc(batches: seq<seq<Event>>, k: nat)
    requires k < |batches|
    ensures Flatten(batches[..k + 1]) == Flatten(batches[..k]) + batches[k]
  {
    assert batches[..k + 1][..k] == batches[..k];
  }

  /** Once the events of the first `k` polls have quit, or `k` is all of the
      polls, the later polls make no difference. */
  lemma StopAtPoll(p: Pointer, batches: seq<seq<Event>>, k: nat)
    requires k <= |batches|
    requires k == |batches| || Process(p, Flatten(batches[..k])).quit
    ensures Process(p, Flatten(batches)) == Process(p, Flatten(batches[..k]))
  {
    FlattenSplit(batches, k);
    if k < |batches| {
      ProcessAppend(p, Flatten(batches[..k]), Flatten(batches[k..]));
    } else {
      assert batches[..k] == batches;
    }
  }

  /** Nothing after a Quit has any effect. */
  lemma QuitIsFinal(p: Pointer, before: seq<Event>, after: seq<Event>)
    ensures Process(p, before + [Quit] + after) == Process(p, before + [Quit])
    ensures Process(p, before + [Quit]).quit
  {
    ProcessAppend(p, before + [Quit], after);
  }

  lemma {:induction false} ActionsAppend(a: seq<Call>, b: seq<Call>)
    ensures Actions(a + b) == Actions(a) + Actions(b)
    decreases |a|
  {
    if a == [] {
      assert a + b == b;
    } else {
      assert (a + b)[0] == a[0];
      assert (a + b)[1..] == a[1..] + b;
      ActionsAppend(a[1..], b);
    }
  }

  /** The actions among some calls are exactly the actions of the Act calls. */
  lemma {:induction false} ActionsMembers(calls: seq<Call>, a: Action)
    ensures a in Actions(calls) <==> Act(a) in calls
    decreases |calls|
  {
    if calls != [] {
      ActionsMembers(calls[1..], a);
      assert calls == [calls[0]] + calls[1..];
    }
  }

  lemma {:induction false} FinalSizeAppend(a: seq<Call>, b: seq<Call>, s: Size)
    ensures FinalSize(a + b, s) == FinalSize(b, FinalSize(a, s))
    decreases |b|
  {
    if b == [] {
      assert a + b == a;
    } else {
      assert (a + b)[|a + b| - 1] == b[|b| - 1];
      assert (a + b)[..|a + b| - 1] == a + b[..|b| - 1];
      FinalSizeAppend(a, b[..|b| - 1], s);
    }
  }

  /** The last size set wins: calls after it that set no size keep it. */
  lemma LastSizeWins(calls: seq<Call>, width: U32, height: U32, rest: seq<Call>, s: Size)
    requires forall c :: c in rest ==> !c.SizeSet?
    ensures FinalSize(calls + [SizeSet(width, height)] + rest, s) == Size(width, height)
  {
    FinalSizeAppend(calls + [SizeSet(width, height)], rest, s);
  }

  /** The calls `a + b` mark the buffer exactly when `a` does, or `b` does
      once the editor has also received `a`. */
  lemma {:induction false} MarkedAppend(h: seq<Call>, a: seq<Call>, b: seq<Call>, marks: Policy)
    ensures Marked(h, a + b, marks) <==> Marked(h, a, marks) || Marked(h + a, b, marks)
    decreases |a|
  {
    if a == [] {
      assert a + b == b;
      assert h + a == h;
    } else {
      assert (a + b)[0] == a[0];
      assert (a + b)[1..] == a[1..] + b;
      assert (h + [a[0]]) + a[1..] == h + a;
      MarkedAppend(h + [a[0]], a[1..], b, marks);
    }
  }

  /** Calls that the policy never marks do not raise the flag. */
  lemma {:induction false} UnmarkedCalls(h: seq<Call>, calls: seq<Call>, marks: Policy)
    requires forall g, c :: c in calls ==> !marks(g, c)
    ensures !Marked(h, calls, marks)
    decreases |calls|
  {
    if calls != [] {
      assert calls[0] in calls;
      assert forall c :: c in calls[1..] ==> c in calls;
      UnmarkedCalls(h + [calls[0]], calls[1..], marks);
    }
  }

  /** While the button has not been pressed, pointer moves do not drag. */
  lemma {:induction false} NoDragBeforePress(p: Pointer, events: seq<Event>)
    requires !p.left
    requires forall i :: 0 <= i < |events| ==> !IsPress(events[i])
    ensures forall c :: c in Process(p, events).calls ==> !IsDrag(c)
    decreases |events|
  {
    if events != [] {
      var first := Dispatch(p, events[0]);
      if !first.quit {
        assert !first.next.left;
        NoDragBeforePress(first.next, events[1..]);
      }
    }
  }

  /** Until the next pointer move, every click is at the stored coordinates. */
  lemma {:induction false} ClicksAtStoredPointer(p: Pointer, events: seq<Event>)
    requires forall i :: 0 <= i < |events| ==> !events[i].Mouse?
    ensures forall c :: c in Process(p, events).calls && IsClick(c) ==>
      c.action == Click(p.x, p.y)
    decreases |events|
  {
    if events != [] {
      var first := Dispatch(p, events[0]);
      if !first.quit {
        assert first.next.x == p.x && first.next.y == p.y;
        ClicksAtStoredPointer(first.next, events[1..]);
      }
    }
  }

  /** From startup: no Drag among the calls made for the events before the
      first button press, and a Click before the first pointer move is at
      (-1, -1). */
  lemma StartupBehaviour(events: seq<Event>, k: nat)
    requires k <= |events|
    ensures (forall i :: 0 <= i < k ==> !IsPress(events[i])) ==>
      forall c :: c in Process(START, events[..k]).calls ==> !IsDrag(c)
    ensures (forall i :: 0 <= i < k ==> !events[i].Mouse?) ==>
      forall c :: c in Process(START, events[..k]).calls && IsClick(c) ==> c.action == Click(-1, -1)
  {
    if forall i :: 0 <= i < k ==> !IsPress(events[i]) {
      NoDragBeforePress(START, events[..k]);
    }
    if forall i :: 0 <= i < k ==> !events[i].Mouse? {
      ClicksAtStoredPointer(START, events[..k]);
    }
  }

  /** Every character inserted while handling a stream came from a text-input
      event carrying it: no key, pointer or button event inserts text. */
  lemma {:induction false} InsertsFromTextInput(p: Pointer, events: seq<Event>, c: char)
    ensures Insert(c) in Actions(Process(p, events).calls) ==> TextInput(c) in events
    decreases |events|
  {
    ActionsMembers(Process(p, events).calls, Insert(c));
    if events != [] {
      var first := Dispatch(p, events[0]);
      if !first.quit {
        var rest := Process(first.next, events[1..]);
        InsertsFromTextInput(first.next, events[1..], c);
        ActionsMembers(rest.calls, Insert(c));
        assert Act(Insert(c)) in first.calls ==> events[0] == TextInput(c);
        assert TextInput(c) in events[1..] ==> TextInput(c) in events;
      }
    }
  }
}
