/** Raw window events as the rich-text example receives them from orbclient,
    the editor actions and other calls it issues to cosmic_text, and the key
    bindings between events and actions. */
module Events {

  datatype Option<+T> = None | Some(value: T)

  /** orbclient's integer widths: scancodes are `u8`, pointer coordinates `i32`,
      window sizes `u32`. */
  type Byte = x: int | 0 <= x < 0x100
  type I32 = x: int | -0x8000_0000 <= x < 0x8000_0000
  type U32 = x: int | 0 <= x < 0x1_0000_0000

  /** The event kinds the driver distinguishes; `Other` stands for every
      further orbclient event kind (scroll, focus, hover, clipboard, ...). */
  datatype Event =
    | Key(character: char, scancode: Byte, pressed: bool)
    | TextInput(character: char)
    | Mouse(x: I32, y: I32)
    | Button(left: bool, middle: bool, right: bool)
    | Resize(width: U32, height: U32)
    | Quit
    | Other

  /** The editor action vocabulary the driver uses. */
  datatype Action =
    | Left | Right | Up | Down | Home | End | PageUp | PageDown
    | Enter | Backspace | Delete
    | Insert(character: char)
    | Click(x: I32, y: I32)
    | Drag(x: I32, y: I32)

  /** A call the driver makes on the editor: an action, the buffer's size
      setter for a resize, or the shaping pass at the top of each iteration. */
  datatype Call = Act(action: Action) | SizeSet(width: U32, height: U32) | Shape

  datatype Size = Size(width: U32, height: U32)

  /** The library's decision whether a call leaves the buffer needing a
      redraw, given every call the editor received before it. The editor's
      state (text, cursor, size) is a function of that history, so the
      decision may depend on it. */
  type Policy = (seq<Call>, Call) -> bool

  // orbclient's scancodes for the eleven keys the driver recognises.
  const K_BKSP: Byte := 0x0E
  const K_ENTER: Byte := 0x1C
  const K_HOME: Byte := 0x47
  const K_UP: Byte := 0x48
  const K_PGUP: Byte := 0x49
  const K_LEFT: Byte := 0x4B
  const K_RIGHT: Byte := 0x4D
  const K_END: Byte := 0x4F
  const K_DOWN: Byte := 0x50
  const K_PGDN: Byte := 0x51
  const K_DEL: Byte := 0x53

  const BOUND_SCANCODES: set<Byte> :=
    {K_LEFT, K_RIGHT, K_UP, K_DOWN, K_HOME, K_END, K_PGUP, K_PGDN, K_ENTER, K_BKSP, K_DEL}

  /** The key each navigation or editing action is bound to; the actions that
      carry data (Insert, Click, Drag) come from other event kinds. */
  function Binding(a: Action): (r: Option<Byte>)
    ensures r.Some? ==> r.value in BOUND_SCANCODES
    ensures r.None? <==> a.Insert? || a.Click? || a.Drag?
  {
    match a
    case Left => Some(K_LEFT)
    case Right => Some(K_RIGHT)
    case Up => Some(K_UP)
    case Down => Some(K_DOWN)
    case Home => Some(K_HOME)
    case End => Some(K_END)
    case PageUp => Some(K_PGUP)
    case PageDown => Some(K_PGDN)
    case Enter => Some(K_ENTER)
    case Backspace => Some(K_BKSP)
    case Delete => Some(K_DEL)
    case Insert(_) => None
    case Click(_, _) => None
    case Drag(_, _) => None
  }

  /** The guarded arms of the driver's match on a key event: an arm fires only
      for its own scancode and only on key-down; anything else falls through
      to the catch-all arm, which does nothing. */
  function KeyAction(scancode: Byte, pressed: bool): (r: Option<Action>)
    ensures r.Some? <==> pressed && scancode in BOUND_SCANCODES
    ensures r.Some? ==> Binding(r.value) == Some(scancode)
  {
    if scancode == K_LEFT && pressed then Some(Left)
    else if scancode == K_RIGHT && pressed then Some(Right)
    else if scancode == K_UP && pressed then Some(Up)
    else if scancode == K_DOWN && pressed then Some(Down)
    else if scancode == K_HOME && pressed then Some(Home)
    else if scancode == K_END && pressed then Some(End)
    else if scancode == K_PGUP && pressed then Some(PageUp)
    else if scancode == K_PGDN && pressed then Some(PageDown)
    else if scancode == K_ENTER && pressed then Some(Enter)
    else if scancode == K_BKSP && pressed then Some(Backspace)
    else if scancode == K_DEL && pressed then Some(Delete)
    else None
  }

  /** A key release never produces an action, whatever the scancode. */
  lemma KeyReleaseIgnored(scancode: Byte)
    ensures KeyAction(scancode, false) == None
  {
  }

  /** Key-down on a bound key yields exactly the action bound to it: the
      converse of KeyAction's second postcondition, so the two tables are
      inverse to each other. */
  lemma BindingInverse(a: Action, scancode: Byte)
    ensures Binding(a) == Some(scancode) <==> KeyAction(scancode, true) == Some(a)
  {
  }

  /** The eleven bound scancodes are pairwise distinct, so the order of the
      guarded arms does not matter. */
  lemma BindingsDistinct()
    ensures |BOUND_SCANCODES| == 11
  {
  }
}
