/**
 * Vedeu::Interface: a named view with a queue of renderings and the content
 * currently on screen. `refresh` shows the next queued rendering, or the
 * interface's clear content when there is nothing to show, or the current
 * content again.
 */
module Interfaces {
  import opened Common
  import opened Sinks

  /** The attributes `Geometry.new(attributes)` is built from. */
  datatype GeometryAttributes = GeometryAttributes(y: int, x: int, width: int, height: int, centred: bool)

  class Interface {
    var name: Option<string>
    var y: int
    var x: int
    var width: int
    var height: int
    var current: Option<string>
    var cursor: bool
    var centred: bool
    var delay: real
    /** The `Vedeu::Queue` of renderings, oldest first. */
    var queue: seq<string>
    var clearMemo: Option<string>
    var geometryMemo: Option<GeometryAttributes>

    /**
     * `Interface.new(attributes)`: every attribute not given takes its
     * default. The width and height default to the terminal's size, passed
     * in because reading it is device I/O; Ruby reads that size once, when
     * the class body is loaded, not at each `new`. The queue starts empty.
     */
    constructor (terminalWidth: int, terminalHeight: int,
                 name: Option<string> := None, y: int := 1, x: int := 1,
                 width: int := terminalWidth, height: int := terminalHeight,
                 current: Option<string> := Some(""), cursor: bool := true,
                 centred: bool := false, delay: real := 0.0)
      ensures this.name == name && this.y == y && this.x == x
      ensures this.width == width && this.height == height
      ensures this.current == current && this.cursor == cursor
      ensures this.centred == centred && this.delay == delay
      ensures queue == [] && clearMemo == None && geometryMemo == None
    {
      this.name := name;
      this.y, this.x := y, x;
      this.width, this.height := width, height;
      this.current := current;
      this.cursor, this.centred := cursor, centred;
      this.delay := delay;
      queue := [];
      clearMemo, geometryMemo := None, None;
    }

    /** `no_content?`: the current content is `nil` or empty. */
    predicate NoContent()
      reads this
    {
      current.None? || current.value == ""
    }

    /** `enqueued?`. */
    predicate Enqueued()
      reads this
    {
      queue != []
    }

    /**
     * `clear`: `ClearInterface.call(self)`, which is not part of this model
     * and is passed in as `computed`, is kept after the first call.
     */
    method Clear(computed: string) returns (c: string)
      modifies this`clearMemo
      ensures old(clearMemo).Some? ==> c == old(clearMemo).value
      ensures old(clearMemo).None? ==> c == computed
      ensures clearMemo == Some(c)
    {
      if clearMemo.None? {
        clearMemo := Some(computed);
      }
      c := clearMemo.value;
    }

    /** `geometry`: built from the attributes as they are at the first call, and kept. */
    method Geometry() returns (g: GeometryAttributes)
      modifies this`geometryMemo
      ensures old(geometryMemo).Some? ==> g == old(geometryMemo).value
      ensures old(geometryMemo).None? ==> g == GeometryAttributes(y, x, width, height, centred)
      ensures geometryMemo == Some(g)
    {
      if geometryMemo.None? {
        geometryMemo := Some(GeometryAttributes(y, x, width, height, centred));
      }
      g := geometryMemo.value;
    }

    /** `enqueue`: the interface's rendering (`to_s`, passed in) joins the back of the queue. */
    method Enqueue(rendering: string)
      modifies this`queue
      ensures queue == old(queue) + [rendering]
    {
      queue := queue + [rendering];
    }

    /**
     * `refresh`: with something queued, the oldest rendering becomes current
     * and leaves the queue; otherwise, with no content, the clear content
     * does; otherwise the current content stays. The final current content
     * goes to the terminal once and is returned.
     */
    method Refresh(clearComputed: string, terminal: Sink<string>) returns (s: string)
      modifies this`current, this`queue, this`clearMemo, terminal
      ensures old(queue) != [] ==>
                current == Some(old(queue)[0]) && queue == old(queue)[1..] && clearMemo == old(clearMemo)
      ensures old(queue) == [] && old(NoContent()) ==>
                current == Some(Memoised(old(clearMemo), clearComputed)) && queue == [] && clearMemo == current
      ensures old(queue) == [] && !old(NoContent()) ==>
                current == old(current) && queue == [] && clearMemo == old(clearMemo)
      ensures current == Some(s)
      ensures terminal.log == old(terminal.log) + [s]
    {
      if Enqueued() {
        current := Some(queue[0]);
        queue := queue[1..];
      } else if NoContent() {
        var c := Clear(clearComputed);
        current := Some(c);
      }
      s := current.value;
      terminal.Write(s);
    }
  }

  /** An interface given only the terminal's size takes every documented default. */
  method Defaults(terminalWidth: int, terminalHeight: int) returns (i: Interface)
    ensures i.y == 1 && i.x == 1 && i.current == Some("") && i.cursor && !i.centred && i.delay == 0.0
    ensures i.width == terminalWidth && i.height == terminalHeight && i.name == None
    ensures i.NoContent() && !i.Enqueued()
  {
    i := new Interface(terminalWidth, terminalHeight);
  }

  /** `clear` asked twice gives the first computed content both times. */
  method ClearIsComputedOnce(i: Interface, first: string, second: string) returns (a: string, b: string)
    requires i.clearMemo == None
    modifies i
    ensures a == first && b == first
  {
    a := i.Clear(first);
    b := i.Clear(second);
  }

  /** `geometry` keeps the attributes of its first call even after they change. */
  method GeometryIsComputedOnce(i: Interface) returns (a: GeometryAttributes, b: GeometryAttributes)
    requires i.geometryMemo == None
    modifies i
    ensures a == b && a.y == old(i.y) && a.width == old(i.width)
  {
    a := i.Geometry();
    i.y := i.y + 1;
    i.width := i.width + 1;
    b := i.Geometry();
  }

  /** Two renderings queued on an empty screen are shown in the order they were queued, then stay. */
  method RefreshShowsInQueueOrder(terminal: Sink<string>, first: string, second: string) returns (i: Interface)
    modifies terminal
    ensures terminal.log == old(terminal.log) + [first, second, second]
    ensures i.current == Some(second) && i.queue == []
  {
    i := new Interface(80, 25);
    i.Enqueue(first);
    i.Enqueue(second);
    var a := i.Refresh("", terminal);
    var b := i.Refresh("", terminal);
    var c := i.Refresh("", terminal);
  }
}
