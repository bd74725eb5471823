/** The editor as the driver sees it. Editing itself belongs to the text
    library and is not modelled: the editor records the calls it receives,
    holds the buffer size, and keeps the buffer's redraw flag. */
module EditorSink {
  import opened Events

  class Editor {
    /** Every call received, in order: actions, size changes and shaping passes. */
    var history: seq<Call>
    /** The buffer size last set through `set_size`. */
    var width: U32
    var height: U32
    /** The buffer's redraw flag. */
    var redraw: bool
    /** The library's decision of which calls leave the buffer needing a
        redraw: a parameter of the model, since that is library behaviour. */
    const marks: Policy

    /** The editor as the driver starts its loop: no call received yet, the
        window's size, and whatever redraw flag the text setup left. */
    constructor (width: U32, height: U32, redraw: bool, marks: Policy)
      ensures this.history == [] && this.width == width && this.height == height
      ensures this.redraw == redraw && this.marks == marks
    {
      this.history := [];
      this.width := width;
      this.height := height;
      this.redraw := redraw;
      this.marks := marks;
    }

    function BufferSize(): Size
      reads this
    {
      Size(width, height)
    }

    /** `editor.action(a)`: recorded; the flag is raised if the library says so. */
    method Apply(a: Action)
      modifies this
      ensures history == old(history) + [Act(a)]
      ensures width == old(width) && height == old(height)
      ensures redraw == (old(redraw) || marks(old(history), Act(a)))
    {
      redraw := redraw || marks(history, Act(a));
      history := history + [Act(a)];
    }

    /** `buffer_mut().set_size(width, height)`. */
    method SetSize(width: U32, height: U32)
      modifies this
      ensures this.width == width && this.height == height
      ensures history == old(history) + [SizeSet(width, height)]
      ensures redraw == (old(redraw) || marks(old(history), SizeSet(width, height)))
    {
      this.width := width;
      this.height := height;
      redraw := redraw || marks(history, SizeSet(width, height));
      history := history + [SizeSet(width, height)];
    }

    /** `editor.shape_as_needed()`: the size is unchanged; the flag is raised
        if the library says so. */
    method ShapeAsNeeded()
      modifies this
      ensures history == old(history) + [Shape]
      ensures width == old(width) && height == old(height)
      ensures redraw == (old(redraw) || marks(old(history), Shape))
    {
      redraw := redraw || marks(history, Shape);
      history := history + [Shape];
    }

    /** `buffer_mut().set_redraw(value)`. */
    method SetRedraw(value: bool)
      modifies this
      ensures redraw == value
      ensures history == old(history) && width == old(width) && height == old(height)
    {
      redraw := value;
    }
  }
}
