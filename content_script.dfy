/**
 * The content script's module-level state and its event handlers
 * (content_script.js): the stroke store, the pointer state machine, the
 * redraw of the drawing surface and the overlay lifecycle.
 *
 * The DOM, the canvas and the `chrome.*` APIs are abstracted:
 * - `chrome.storage.local` is the map `storage`; its asynchronous get and
 *   set complete at once;
 * - each DOM handle (`overlayRoot`, `toolbarRoot`, `canvas`, `ctx`) is a
 *   flag that says whether the variable is non-null;
 * - the canvas contents are the path commands issued since it was last
 *   cleared (`painted`);
 * - pointer positions, the toolbar's colour and size, the page's elements
 *   and the container's measured size are parameters of the handlers.
 * A JavaScript exception escaping a handler is the result `threw`.
 */
module ContentScript {
  import opened Options
  import opened Strokes
  import ConversationKey
  import ChatContainer

  /** The storage key of the persisted on/off state. */
  const EnabledFlagKey: string := "doodleEnabled"

  /** A value read back from storage: an array (of strokes), a boolean, or anything else. */
  datatype StoredValue = Array(strokes: seq<Stroke>) | Boolean(flag: bool) | Other(truthy: bool)

  /** JavaScript truthiness of a stored value. */
  predicate Truthy(v: StoredValue) {
    match v
    case Array(_) => true
    case Boolean(b) => b
    case Other(t) => t
  }

  /** What loadStrokes keeps of the value stored under `key`. */
  function StoredStrokes(storage: map<string, StoredValue>, key: string): seq<Stroke> {
    if key in storage && storage[key].Array? then storage[key].strokes else []
  }

  /** A collection saved under a key is what a later load of that key returns. */
  lemma SaveThenLoad(storage: map<string, StoredValue>, key: string, s: seq<Stroke>)
    ensures StoredStrokes(storage[key := Array(s)], key) == s
  {
  }

  /** A missing key and a stored value that is not an array both load as the empty collection. */
  lemma LoadMissingOrMalformed(storage: map<string, StoredValue>, key: string)
    requires key !in storage || !storage[key].Array?
    ensures StoredStrokes(storage, key) == []
  {
  }

  /** The on/off flag never shares a key with a stroke collection. */
  lemma EnabledFlagIsNotAConversationKey(host: string, path: string)
    ensures ConversationKey.Key(host, path) != EnabledFlagKey
  {
    assert ConversationKey.Key(host, path)[0] == 'c';
  }

  /**
   * Saving strokes for one conversation leaves what loads for any other
   * conversation of the same site unchanged.
   */
  lemma ConversationsAreIsolated(host: string, p1: string, p2: string,
                                 storage: map<string, StoredValue>, s: seq<Stroke>)
    requires ConversationKey.HostName(host)
    requires 0 < |p1| && p1[0] == '/' && 0 < |p2| && p2[0] == '/'
    requires ConversationKey.ConversationId(p1) != ConversationKey.ConversationId(p2)
    ensures StoredStrokes(storage[ConversationKey.Key(host, p1) := Array(s)], ConversationKey.Key(host, p2))
         == StoredStrokes(storage, ConversationKey.Key(host, p2))
  {
    if ConversationKey.Key(host, p1) == ConversationKey.Key(host, p2) {
      ConversationKey.KeyIdentifiesConversation(host, p1, host, p2);
    }
  }

  /**
   * The body of redrawAll's loop for one non-empty stroke: begin a path,
   * move to the first point, draw a line to every later point, stroke it
   * with the stroke's colour and width.
   */
  method TraceStroke(stroke: Stroke) returns (path: seq<DrawCmd>)
    requires |stroke.points| > 0
    ensures path == StrokeCommands(stroke)
    ensures Paint(path, []) == [stroke]
  {
    var pts := stroke.points;
    path := [BeginPath, MoveTo(pts[0])];
    var j := 1;
    while j < |pts|
      invariant 1 <= j <= |pts|
      invariant path == [BeginPath, MoveTo(pts[0])] + LineTos(pts[1..j])
    {
      assert pts[1..j + 1] == pts[1..j] + [pts[j]];
      path := path + [LineTo(pts[j])];
      j := j + 1;
    }
    assert pts[1..j] == pts[1..];
    path := path + [StrokePath(stroke.color, stroke.size)];
    PaintStroke(stroke, [], []);
    assert path + [] == path;
  }

  /** The state the content script keeps in its closure. */
  class Doodle {
    const hostname: string
    const pathname: string
    const key: string                                 // getConversationKey() for this page
    var storage: map<string, StoredValue>
    var enabled: bool                                 // STATE.enabled and the page marker
    var container: Option<ChatContainer.Container>
    var overlayRoot: bool
    var toolbarRoot: bool
    var canvas: bool
    var ctx: bool
    var observing: bool                               // the resize and mutation observers are connected
    var surfaceWidth: int                             // the canvas's CSS size
    var surfaceHeight: int
    var painted: seq<DrawCmd>
    var drawing: bool
    var drawEnabled: bool
    var currentStroke: Option<Stroke>
    var strokes: seq<Stroke>

    /**
     * While drawing there is a stroke in progress with at least one point;
     * without a context nothing is painted.
     */
    ghost predicate Valid()
      reads this
    {
      (drawing ==> currentStroke.Some? && |currentStroke.value.points| > 0)
      && (!ctx ==> painted == [])
    }

    /** The stroke key is the page's conversation key; it never changes. */
    ghost predicate KeyOfPage() {
      key == ConversationKey.Key(hostname, pathname)
    }

    /** The overlay's handles are set and cleared together. */
    ghost predicate HandlesAgree()
      reads this
    {
      overlayRoot == toolbarRoot && toolbarRoot == canvas && canvas == ctx
    }

    /** The script's state when it is injected into a page. */
    constructor (hostname: string, pathname: string, storage: map<string, StoredValue>)
      ensures Valid() && HandlesAgree()
      ensures this.hostname == hostname && this.pathname == pathname && this.storage == storage
      ensures KeyOfPage()
      ensures !enabled && container == None && !overlayRoot && !observing
      ensures painted == [] && !drawing && drawEnabled && currentStroke == None && strokes == []
    {
      this.hostname := hostname;
      this.pathname := pathname;
      key := ConversationKey.Key(hostname, pathname);
      this.storage := storage;
      enabled := false;
      container := None;
      overlayRoot, toolbarRoot, canvas, ctx := false, false, false, false;
      observing := false;
      surfaceWidth, surfaceHeight := 0, 0;
      painted := [];
      drawing := false;
      drawEnabled := true;
      currentStroke := None;
      strokes := [];
    }

    /** saveStrokes: the whole collection replaces what is stored under the current key. */
    method SaveStrokes()
      modifies this`storage
      ensures storage == old(storage)[key := Array(strokes)]
    {
      storage := storage[key := Array(strokes)];
    }

    /** loadStrokes: the stored array, or the empty collection for anything else. */
    method LoadStrokes()
      modifies this`strokes
      ensures strokes == StoredStrokes(storage, key)
      ensures key in storage && storage[key].Array? ==> strokes == storage[key].strokes
      ensures !(key in storage && storage[key].Array?) ==> strokes == []
    {
      if key in storage && storage[key].Array? {
        strokes := storage[key].strokes;
      } else {
        strokes := [];
      }
    }

    /**
     * redrawAll: without a context nothing happens; otherwise the canvas is
     * cleared and every non-empty stroke is drawn in order.
     */
    method RedrawAll()
      modifies this`painted
      ensures ctx ==> painted == Render(strokes)
      ensures ctx ==> Paint(painted, []) == Drawn(strokes)
      ensures !ctx ==> painted == old(painted)
    {
      if !ctx {
        return;
      }
      var cmds: seq<DrawCmd> := [];
      var i := 0;
      while i < |strokes|
        invariant 0 <= i <= |strokes|
        invariant cmds == Render(strokes[..i])
      {
        var stroke := strokes[i];
        if |stroke.points| > 0 {
          var path := TraceStroke(stroke);
          cmds := cmds + path;
        }
        RenderAppend(strokes[..i], stroke);
        assert strokes[..i + 1] == strokes[..i] + [stroke];
        i := i + 1;
      }
      assert strokes[..i] == strokes;
      painted := cmds;
      PaintRender(strokes, []);
    }

    /**
     * resize: the canvas takes the container's client width and scroll
     * height, then everything is redrawn. Without a canvas (a debounced call
     * that fires after the overlay is gone) it throws before changing anything.
     */
    method Resize(width: int, height: int) returns (threw: bool)
      modifies this`surfaceWidth, this`surfaceHeight, this`painted
      ensures threw <==> !canvas || !ctx
      ensures canvas ==> surfaceWidth == width && surfaceHeight == height
      ensures !canvas ==> surfaceWidth == old(surfaceWidth) && surfaceHeight == old(surfaceHeight)
      ensures canvas && ctx ==> painted == Render(strokes)
      ensures !(canvas && ctx) ==> painted == old(painted)
    {
      if !canvas {
        return true;
      }
      surfaceWidth, surfaceHeight := width, height;
      if !ctx {
        return true;
      }
      RedrawAll();
      return false;
    }

    /** `loadStrokes().then(redrawAll)`: the stored collection replaces the strokes and is drawn. */
    method LoadThenRedraw()
      modifies this`strokes, this`painted
      ensures strokes == StoredStrokes(storage, key)
      ensures ctx ==> painted == Render(strokes)
      ensures !ctx ==> painted == old(painted)
    {
      LoadStrokes();
      RedrawAll();
    }

    /**
     * The building half of createOverlay: locates the container, creates the
     * overlay root, the toolbar, the canvas and its context, sizes and draws
     * the canvas, and connects the resize and mutation observers. An overlay
     * root left without a toolbar is replaced.
     */
    method Attach(dom: Option<seq<ChatContainer.Element>>, width: int, height: int)
      requires Valid()
      modifies this`container, this`overlayRoot, this`toolbarRoot, this`canvas, this`ctx
      modifies this`observing, this`surfaceWidth, this`surfaceHeight, this`painted
      ensures Valid() && HandlesAgree()
      ensures overlayRoot && toolbarRoot && canvas && ctx && observing
      ensures container == Some(ChatContainer.FindChatContainer(dom))
      ensures surfaceWidth == width && surfaceHeight == height
      ensures painted == Render(strokes)
    {
      container := Some(ChatContainer.FindChatContainer(dom));
      overlayRoot, toolbarRoot, canvas, ctx, painted := true, true, true, true, [];
      var threw := Resize(width, height);
      observing := true;
    }

    /**
     * createOverlay: a no-op when both roots exist; otherwise it builds the
     * overlay, switches draw mode on, and loads and redraws the strokes.
     */
    method CreateOverlay(dom: Option<seq<ChatContainer.Element>>, width: int, height: int)
      requires Valid()
      modifies this`container, this`overlayRoot, this`toolbarRoot, this`canvas, this`ctx
      modifies this`observing, this`surfaceWidth, this`surfaceHeight, this`painted
      modifies this`drawEnabled, this`strokes
      ensures Valid()
      ensures old(HandlesAgree()) ==> HandlesAgree()
      ensures overlayRoot && toolbarRoot
      ensures old(overlayRoot && toolbarRoot) ==> unchanged(this)
      ensures !old(overlayRoot && toolbarRoot) ==>
                canvas && ctx && observing
                && container == Some(ChatContainer.FindChatContainer(dom))
                && surfaceWidth == width && surfaceHeight == height
                && drawEnabled
                && strokes == StoredStrokes(storage, key)
                && painted == Render(strokes)
    {
      if overlayRoot && toolbarRoot {
        return;
      }
      Attach(dom, width, height);
      drawEnabled := true;
      LoadThenRedraw();
    }

    /** destroyOverlay: disconnects the observers and drops every handle; the strokes stay in memory. */
    method DestroyOverlay()
      requires Valid()
      modifies this`observing, this`overlayRoot, this`toolbarRoot, this`canvas, this`ctx, this`painted
      ensures Valid() && HandlesAgree()
      ensures !observing && !overlayRoot && !toolbarRoot && !canvas && !ctx && painted == []
    {
      observing := false;
      overlayRoot, toolbarRoot, canvas, ctx := false, false, false, false;
      painted := [];
    }

    /**
     * setEnabled: records and persists the flag, then creates or destroys
     * the overlay. Stored stroke collections are never touched.
     */
    method SetEnabled(on: bool, dom: Option<seq<ChatContainer.Element>>, width: int, height: int)
      requires Valid() && KeyOfPage()
      modifies this`enabled, this`storage
      modifies this`container, this`overlayRoot, this`toolbarRoot, this`canvas, this`ctx
      modifies this`observing, this`surfaceWidth, this`surfaceHeight, this`painted
      modifies this`drawEnabled, this`strokes
      ensures Valid()
      ensures old(HandlesAgree()) ==> HandlesAgree()
      ensures enabled == on
      ensures storage == old(storage)[EnabledFlagKey := Boolean(on)]
      ensures StoredStrokes(storage, key) == StoredStrokes(old(storage), key)
      ensures on ==> overlayRoot && toolbarRoot
      ensures on && old(overlayRoot && toolbarRoot) ==>
                container == old(container) && canvas == old(canvas) && ctx == old(ctx)
                && observing == old(observing) && painted == old(painted)
                && drawEnabled == old(drawEnabled) && strokes == old(strokes)
      ensures on && old(overlayRoot && toolbarRoot) ==>
                surfaceWidth == old(surfaceWidth) && surfaceHeight == old(surfaceHeight)
      ensures on && !old(overlayRoot && toolbarRoot) ==>
                canvas && ctx && observing
                && container == Some(ChatContainer.FindChatContainer(dom))
                && surfaceWidth == width && surfaceHeight == height
                && drawEnabled
                && strokes == StoredStrokes(old(storage), key)
                && painted == Render(strokes)
      ensures !on ==> !observing && !overlayRoot && !toolbarRoot && !canvas && !ctx && painted == []
      ensures !on ==> strokes == old(strokes) && drawEnabled == old(drawEnabled)
      ensures !on ==>
                container == old(container)
                && surfaceWidth == old(surfaceWidth) && surfaceHeight == old(surfaceHeight)
    {
      enabled := on;
      storage := storage[EnabledFlagKey := Boolean(on)];
      EnabledFlagIsNotAConversationKey(hostname, pathname);
      if on {
        CreateOverlay(dom, width, height);
      } else {
        DestroyOverlay();
      }
    }

    /** Start-up: a truthy persisted flag switches the overlay on; otherwise nothing happens. */
    method Startup(dom: Option<seq<ChatContainer.Element>>, width: int, height: int)
      requires Valid() && KeyOfPage()
      modifies this`enabled, this`storage
      modifies this`container, this`overlayRoot, this`toolbarRoot, this`canvas, this`ctx
      modifies this`observing, this`surfaceWidth, this`surfaceHeight, this`painted
      modifies this`drawEnabled, this`strokes
      ensures Valid()
      ensures !(EnabledFlagKey in old(storage) && Truthy(old(storage)[EnabledFlagKey])) ==> unchanged(this)
      ensures EnabledFlagKey in old(storage) && Truthy(old(storage)[EnabledFlagKey]) ==>
                enabled && overlayRoot && toolbarRoot
                && storage == old(storage)[EnabledFlagKey := Boolean(true)]
      ensures EnabledFlagKey in old(storage) && Truthy(old(storage)[EnabledFlagKey])
              && old(overlayRoot && toolbarRoot) ==>
                container == old(container) && canvas == old(canvas) && ctx == old(ctx)
                && observing == old(observing) && painted == old(painted)
                && surfaceWidth == old(surfaceWidth) && surfaceHeight == old(surfaceHeight)
                && drawEnabled == old(drawEnabled) && strokes == old(strokes)
      ensures EnabledFlagKey in old(storage) && Truthy(old(storage)[EnabledFlagKey])
              && !old(overlayRoot && toolbarRoot) ==>
                canvas && ctx && observing
                && container == Some(ChatContainer.FindChatContainer(dom))
                && surfaceWidth == width && surfaceHeight == height
                && drawEnabled
                && strokes == StoredStrokes(old(storage), key)
                && painted == Render(strokes)
    {
      if EnabledFlagKey in storage && Truthy(storage[EnabledFlagKey]) {
        SetEnabled(true, dom, width, height);
      }
    }

    /** The mode button: flips between drawing and typing through the surface. */
    method ToggleDrawMode()
      modifies this`drawEnabled
      ensures drawEnabled == !old(drawEnabled)
    {
      drawEnabled := !drawEnabled;
    }

    /**
     * pointerdown on the canvas: ignored in type mode; otherwise opens a
     * one-point stroke with the toolbar's colour and size and starts the
     * live path there.
     */
    method PointerDown(p: Point, color: string, size: int)
      requires Valid() && canvas && ctx
      modifies this`drawing, this`currentStroke, this`painted
      ensures Valid()
      ensures !drawEnabled ==>
                drawing == old(drawing) && currentStroke == old(currentStroke) && painted == old(painted)
      ensures drawEnabled ==>
                drawing && currentStroke == Some(Stroke(color, size, [p]))
                && painted == old(painted) + [BeginPath, MoveTo(p)]
    {
      if !drawEnabled {
        return;
      }
      drawing := true;
      currentStroke := Some(Stroke(color, size, [p]));
      painted := painted + [BeginPath, MoveTo(p)];
    }

    /**
     * pointermove on the canvas: while drawing in draw mode, paints the
     * segment to `p` and appends `p` to the stroke in progress; otherwise
     * does nothing.
     */
    method PointerMove(p: Point)
      requires Valid() && canvas && ctx
      modifies this`currentStroke, this`painted
      ensures Valid()
      ensures !(drawing && drawEnabled) ==> currentStroke == old(currentStroke) && painted == old(painted)
      ensures drawing && drawEnabled ==>
                var t := old(currentStroke).value;
                currentStroke == Some(Stroke(t.color, t.size, t.points + [p]))
                && painted == old(painted) + [LineTo(p), StrokePath(t.color, t.size)]
    {
      if !drawing || !drawEnabled {
        return;
      }
      var t := currentStroke.value;
      painted := painted + [LineTo(p), StrokePath(t.color, t.size)];
      currentStroke := Some(t.(points := t.points + [p]));
    }

    /**
     * pointerup anywhere in the window: when drawing, commits the stroke in
     * progress at the end of the collection and saves the whole collection.
     * After the overlay is destroyed `ctx` is null and the handler throws
     * once it has left drawing mode, so the stroke is neither kept nor saved.
     */
    method PointerUp() returns (threw: bool)
      requires Valid()
      modifies this`drawing, this`currentStroke, this`strokes, this`storage, this`painted
      ensures Valid()
      ensures !old(drawing) ==> !threw && unchanged(this)
      ensures old(drawing) ==> !drawing && (threw <==> !ctx)
      ensures old(drawing) && !ctx ==>
                currentStroke == old(currentStroke) && strokes == old(strokes)
                && storage == old(storage) && painted == old(painted)
      ensures old(drawing) && ctx ==>
                currentStroke == None
                && strokes == old(strokes) + [old(currentStroke).value]
                && storage == old(storage)[key := Array(strokes)]
                && painted == old(painted) + [ClosePath]
    {
      if !drawing {
        return false;
      }
      drawing := false;
      if !ctx {
        return true;
      }
      painted := painted + [ClosePath];
      strokes := strokes + [currentStroke.value];
      currentStroke := None;
      SaveStrokes();
      return false;
    }

    /** The clear button: empties the collection, saves it and redraws the now empty canvas. */
    method Clear()
      requires Valid()
      modifies this`strokes, this`storage, this`painted
      ensures Valid()
      ensures strokes == [] && painted == []
      ensures storage == old(storage)[key := Array([])]
      ensures StoredStrokes(storage, key) == []
    {
      strokes := [];
      SaveStrokes();
      RedrawAll();
    }
  }
}
