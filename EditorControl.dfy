/**
 * `EditorUserControl`: the contextual-action flags offered for a block or a selection, the
 * single-pointer ownership rule of the input handlers, the mouse-wheel arithmetic, the tool
 * assignment of the active-pen mode and the smart-guide switch.
 *
 * The engine is replaced by values: what the editor would answer about a block, a selection
 * or the part is passed in, and every call the control makes into the editor is appended to
 * a log.  Pointer positions, forces and the hand-tool scrolling they drive are left out.
 */
module EditorControl {
  import opened Wrappers

  // ---------------------------------------------------------------------------------------
  // Contextual actions

  /** A member of the `[Flags]` enumeration `ContextualActions`. */
  datatype Action =
    | AddBlock | Remove | Convert | Copy | OfficeClipboard | Paste
    | Import | Export | FormatText | SelectionMode | SelectionType

  /** The enumeration's value of each member. */
  function Bit(a: Action): bv32 {
    match a
    case AddBlock => 0x1
    case Remove => 0x2
    case Convert => 0x4
    case Copy => 0x8
    case OfficeClipboard => 0x10
    case Paste => 0x20
    case Import => 0x40
    case Export => 0x80
    case FormatText => 0x100
    case SelectionMode => 0x200
    case SelectionType => 0x400
  }

  /** Every member is a single bit and no two members share one, so a flag word is exactly a
      set of members; the model works with the set. */
  lemma ActionsAreDistinctBits(a: Action, b: Action)
    ensures Bit(a) != 0 && Bit(a) & (Bit(a) - 1) == 0
    ensures a != b ==> Bit(a) & Bit(b) == 0
  {
  }

  /** For each member, whether it is offered. */
  datatype Offer = Offer(
    addBlock: bool, remove: bool, convert: bool, copy: bool, officeClipboard: bool, paste: bool,
    imports: bool, exports: bool, formatText: bool, selectionMode: bool, selectionType: bool)
  {
    predicate Offers(a: Action) {
      match a
      case AddBlock => addBlock
      case Remove => remove
      case Convert => convert
      case Copy => copy
      case OfficeClipboard => officeClipboard
      case Paste => paste
      case Import => imports
      case Export => exports
      case FormatText => formatText
      case SelectionMode => selectionMode
      case SelectionType => selectionType
    }
  }

  const AllActions: set<Action> := {AddBlock, Remove, Convert, Copy, OfficeClipboard, Paste,
                                    Import, Export, FormatText, SelectionMode, SelectionType}

  lemma InAllActions(a: Action)
    ensures a in AllActions
  {
    match a
    case AddBlock =>
    case Remove =>
    case Convert =>
    case Copy =>
    case OfficeClipboard =>
    case Paste =>
    case Import =>
    case Export =>
    case FormatText =>
    case SelectionMode =>
    case SelectionType =>
  }

  /** The flag word of an offer: the members it offers. */
  function Flags(o: Offer): (r: set<Action>)
    ensures forall a :: a in r <==> o.Offers(a)
    ensures (AddBlock in r <==> o.addBlock) && (Remove in r <==> o.remove) && (Convert in r <==> o.convert)
    ensures (Copy in r <==> o.copy) && (OfficeClipboard in r <==> o.officeClipboard) && (Paste in r <==> o.paste)
    ensures (Import in r <==> o.imports) && (Export in r <==> o.exports) && (FormatText in r <==> o.formatText)
    ensures (SelectionMode in r <==> o.selectionMode) && (SelectionType in r <==> o.selectionType)
  {
    assert forall a: Action :: a in AllActions by {
      forall a: Action
        ensures a in AllActions
      {
        InAllActions(a);
      }
    }
    set a | a in AllActions && o.Offers(a)
  }

  const NoOffer := Offer(false, false, false, false, false, false, false, false, false, false, false)

  datatype MimeType = OfficeClipboardMime | OtherMime(name: string)

  /** A list the editor returns, or null. */
  predicate Any<T>(list: Option<seq<T>>) {
    list.Some? && |list.value| > 0
  }

  predicate Contains(list: Option<seq<MimeType>>, m: MimeType) {
    list.Some? && m in list.value
  }

  /** What the editor says about a content block. */
  datatype BlockFacts = BlockFacts(
    id: string, blockType: string, isEmpty: bool,
    exports: Option<seq<MimeType>>, imports: Option<seq<MimeType>>,
    states: Option<seq<string>>, formats: Option<seq<string>>, types: Option<seq<string>>)

  /** What the editor says about a selection. */
  datatype SelectionFacts = SelectionFacts(
    isEmpty: bool, exports: Option<seq<MimeType>>,
    states: Option<seq<string>>, formats: Option<seq<string>>, types: Option<seq<string>>)

  /** What the editor says about itself: the part's type (`None` without a part), the root
      block, the block types that can be added, the selection modes. */
  datatype EditorFacts = EditorFacts(
    partType: Option<string>, root: BlockFacts,
    addBlockTypes: Option<seq<string>>, selectionModes: Option<seq<string>>)

  /** `GetAvailableActions(ContentBlock)`. */
  function BlockActions(block: Option<BlockFacts>, editor: EditorFacts): (r: set<Action>)
    ensures block.None? || editor.partType.None? ==> r == {}
    ensures block.Some? && block.value.id != editor.root.id && block.value.blockType == "Container" ==> r == {}
    ensures block.Some? && editor.partType.Some? && (block.value.id == editor.root.id || block.value.blockType != "Container") ==>
      var b := block.value;
      var isRoot := b.id == editor.root.id;
      var onText := editor.partType.value == "Text Document";
      var exports := if editor.partType.value == "Raw Content" then editor.root.exports else b.exports;
      && (AddBlock in r <==> Any(editor.addBlockTypes) && (!onText || isRoot))
      && (Remove in r <==> !isRoot)
      && (Convert in r <==> Any(b.states) && !b.isEmpty)
      && (Copy in r <==> !onText || !isRoot)
      && (OfficeClipboard in r <==> Any(exports) && Contains(exports, OfficeClipboardMime))
      && (Paste in r <==> isRoot)
      && (Import in r <==> Any(b.imports))
      && (Export in r <==> Any(exports))
      && (FormatText in r <==> Any(b.formats))
      && (SelectionMode in r <==> Any(editor.selectionModes))
      && (SelectionType in r <==> Any(b.types))
  {
    if block.None? || editor.partType.None? then Flags(NoOffer)
    else
      var b := block.value;
      var isRoot := b.id == editor.root.id;
      if !isRoot && b.blockType == "Container" then Flags(NoOffer)
      else
        var onRaw := editor.partType.value == "Raw Content";
        var onText := editor.partType.value == "Text Document";
        var exports := if onRaw then editor.root.exports else b.exports;
        Flags(Offer(
          Any(editor.addBlockTypes) && (!onText || isRoot), !isRoot, Any(b.states) && !b.isEmpty,
          !onText || !isRoot, Any(exports) && Contains(exports, OfficeClipboardMime), isRoot,
          Any(b.imports), Any(exports), Any(b.formats), Any(editor.selectionModes), Any(b.types)))
  }

  /** `GetAvailableActions(ContentSelection)`. */
  function SelectionActions(selection: Option<SelectionFacts>, editor: EditorFacts): (r: set<Action>)
    ensures selection.None? || selection.value.isEmpty || editor.partType.None? ==> r == {}
    ensures selection.Some? && !selection.value.isEmpty && editor.partType.Some? ==>
      var s := selection.value;
      && Remove in r && Copy in r
      && AddBlock !in r && Paste !in r && Import !in r
      && (Convert in r <==> Any(s.states))
      && (OfficeClipboard in r <==> Any(s.exports) && Contains(s.exports, OfficeClipboardMime))
      && (Export in r <==> Any(s.exports))
      && (FormatText in r <==> Any(s.formats))
      && (SelectionMode in r <==> Any(editor.selectionModes))
      && (SelectionType in r <==> Any(s.types))
  {
    if selection.None? || selection.value.isEmpty || editor.partType.None? then Flags(NoOffer)
    else
      var s := selection.value;
      Flags(Offer(
        false, true, Any(s.states), true, Any(s.exports) && Contains(s.exports, OfficeClipboardMime),
        false, false, Any(s.exports), Any(s.formats), Any(editor.selectionModes), Any(s.types)))
  }

  /** Copying to the Office clipboard is only ever offered together with export. */
  lemma OfficeClipboardImpliesExport(block: Option<BlockFacts>, selection: Option<SelectionFacts>, editor: EditorFacts)
    ensures OfficeClipboard in BlockActions(block, editor) ==> Export in BlockActions(block, editor)
    ensures OfficeClipboard in SelectionActions(selection, editor) ==> Export in SelectionActions(selection, editor)
  {
    var r := BlockActions(block, editor);
    var q := SelectionActions(selection, editor);
    if OfficeClipboard in r {
      assert r != {};
    }
    if OfficeClipboard in q {
      assert q != {};
    }
  }

  /** A block offers exactly one of removing it and pasting into it. */
  lemma RemoveOrPaste(block: Option<BlockFacts>, editor: EditorFacts)
    requires BlockActions(block, editor) != {}
    ensures (Remove in BlockActions(block, editor)) != (Paste in BlockActions(block, editor))
  {
  }

  // ---------------------------------------------------------------------------------------
  // Pointer ownership

  datatype PointerType = Pen | Touch | Mouse

  /** `_inputType` (`None` for -1) and `_inputDeviceId`. */
  datatype InputState = InputState(owner: Option<PointerType>, deviceId: int)

  const Idle := InputState(None, -1)

  /** An input event reaching a `renderLayer_*` handler. `fromStylus` says the tablet device
      is absent or is a stylus; `byStylus` says a mouse event was generated by a stylus. */
  datatype InputEvent =
    | TouchDown(id: int) | TouchMove(id: int) | TouchUp(id: int)
    | StylusDown(id: int, tipOnly: bool, fromStylus: bool)
    | StylusMove(id: int, inAir: bool, fromStylus: bool)
    | StylusUp(id: int, fromStylus: bool)
    | MouseRightButtonDown(byStylus: bool)
    | MouseLeftButtonDown(byStylus: bool) | MouseMove(byStylus: bool) | MouseLeftButtonUp(byStylus: bool)
  {
    predicate IsDown() {
      TouchDown? || StylusDown? || MouseLeftButtonDown?
    }

    predicate IsMove() {
      TouchMove? || StylusMove? || MouseMove?
    }

    predicate IsUp() {
      TouchUp? || StylusUp? || MouseLeftButtonUp?
    }

    /** The pointer type of a down, move or up event. */
    function Pointer(): PointerType
      requires IsDown() || IsMove() || IsUp()
    {
      if TouchDown? || TouchMove? || TouchUp? then Touch
      else if StylusDown? || StylusMove? || StylusUp? then Pen
      else Mouse
    }

    /** The device id a down, move or up event carries; a mouse has none (-1). */
    function Device(): int
      requires IsDown() || IsMove() || IsUp()
    {
      if TouchDown? || TouchMove? || TouchUp? || StylusDown? || StylusMove? || StylusUp? then id else -1
    }
  }

  /** A call the control makes into the editor; the pointer id it passes is the type's. */
  datatype EditorCall =
    | PointerDown(pointer: PointerType)
    | PointerMove(pointer: PointerType)
    | PointerUp(pointer: PointerType)
    | PointerCancel(cancelled: Option<PointerType>)

  /** The handlers' guards and effects: the new ownership state and the editor call made. */
  function Handle(s: InputState, hasPart: bool, e: InputEvent): (InputState, Option<EditorCall>) {
    if !hasPart then (s, None)
    else match e
      case TouchDown(id) =>
        if s == Idle then (InputState(Some(Touch), id), Some(PointerDown(Touch))) else (s, None)
      case TouchMove(id) =>
        if s.owner == Some(Touch) && s.deviceId == id then (s, Some(PointerMove(Touch))) else (s, None)
      case TouchUp(id) =>
        if s.owner == Some(Touch) && s.deviceId == id then (Idle, Some(PointerUp(Touch))) else (s, None)
      case StylusDown(id, tipOnly, fromStylus) =>
        if s == Idle && tipOnly && fromStylus then (InputState(Some(Pen), id), Some(PointerDown(Pen))) else (s, None)
      case StylusMove(id, inAir, fromStylus) =>
        if s.owner == Some(Pen) && s.deviceId == id && !inAir && fromStylus then (s, Some(PointerMove(Pen))) else (s, None)
      case StylusUp(id, fromStylus) =>
        if s.owner == Some(Pen) && fromStylus then (Idle, Some(PointerUp(Pen))) else (s, None)
      case MouseRightButtonDown(byStylus) =>
        if byStylus then (Idle, Some(PointerCancel(s.owner))) else (s, None)
      case MouseLeftButtonDown(byStylus) =>
        if s == Idle && !byStylus then (InputState(Some(Mouse), -1), Some(PointerDown(Mouse))) else (s, None)
      case MouseMove(byStylus) =>
        if s.owner == Some(Mouse) && s.deviceId == -1 && !byStylus then (s, Some(PointerMove(Mouse))) else (s, None)
      case MouseLeftButtonUp(byStylus) =>
        if s.owner == Some(Mouse) && s.deviceId == -1 && !byStylus then (Idle, Some(PointerUp(Mouse))) else (s, None)
  }

  /** A down event is taken only when no pointer is owned, and makes its pointer the owner. */
  lemma DownOnlyWhenIdle(s: InputState, hasPart: bool, e: InputEvent)
    requires e.IsDown()
    ensures Handle(s, hasPart, e).1.Some? ==> s == Idle && Handle(s, hasPart, e).0 == InputState(Some(e.Pointer()), e.Device())
    ensures s != Idle ==> Handle(s, hasPart, e) == (s, None)
  {
  }

  /** A move or up event is taken only from the owning type and, except for a stylus up,
      the owning device; a taken up event returns to idle. */
  lemma MoveAndUpOnlyFromOwner(s: InputState, hasPart: bool, e: InputEvent)
    requires e.IsMove() || e.IsUp()
    ensures Handle(s, hasPart, e).1.Some? ==> s.owner == Some(e.Pointer())
    ensures Handle(s, hasPart, e).1.Some? && !e.StylusUp? ==> s.deviceId == e.Device()
    ensures Handle(s, hasPart, e).1.Some? && e.IsUp() ==> Handle(s, hasPart, e).0 == Idle
    ensures e.IsMove() ==> Handle(s, hasPart, e).0 == s
  {
  }

  /** A stylus up releases the pen whichever stylus device it comes from. */
  lemma StylusUpIgnoresDevice(owner: int, other: int)
    ensures Handle(InputState(Some(Pen), owner), true, StylusUp(other, true)) == (Idle, Some(PointerUp(Pen)))
  {
  }

  /** An event the handlers ignore changes nothing, and every change is reported to the editor. */
  lemma IgnoredEventsChangeNothing(s: InputState, hasPart: bool, e: InputEvent)
    ensures Handle(s, hasPart, e).1.None? ==> Handle(s, hasPart, e).0 == s
  {
  }

  /** The handlers keep: no owner, or a mouse owner, goes with device id -1. */
  predicate ValidInput(s: InputState) {
    (s.owner.None? || s.owner == Some(Mouse)) ==> s.deviceId == -1
  }

  lemma HandlePreservesValid(s: InputState, hasPart: bool, e: InputEvent)
    requires ValidInput(s)
    ensures ValidInput(Handle(s, hasPart, e).0)
  {
  }

  function Run(s: InputState, hasPart: bool, events: seq<InputEvent>): InputState
    decreases |events|
  {
    if events == [] then s else Run(Handle(s, hasPart, events[0]).0, hasPart, events[1..])
  }

  /** Until it is released, a pointer keeps ownership: events other than its own up and a
      stylus-generated right click leave the state as it is. */
  lemma {:induction false} OwnershipPersists(s: InputState, hasPart: bool, events: seq<InputEvent>)
    requires s.owner.Some?
    requires forall k :: 0 <= k < |events| ==> !(events[k].IsUp() || events[k].MouseRightButtonDown?)
    ensures Run(s, hasPart, events) == s
    decreases |events|
  {
    if events != [] {
      OwnershipPersists(s, hasPart, events[1..]);
    }
  }

  // ---------------------------------------------------------------------------------------
  // Mouse wheel

  /** C#'s `/` on `int`: the quotient truncated toward zero. */
  function TruncDiv(a: int, b: int): (q: int)
    requires b > 0
    ensures a >= 0 ==> q == a / b
    ensures a < 0 ==> q == -((-a) / b)
  {
    if a >= 0 then a / b else -((-a) / b)
  }

  lemma TruncDivOdd(a: int, b: int)
    requires b > 0
    ensures TruncDiv(-a, b) == -TruncDiv(a, b)
  {
  }

  const WheelDelta := 120
  const ScrollSpeed := 100

  datatype WheelEffect = WheelIgnored | NoZoom | ZoomIn(steps: nat) | ZoomOut(steps: nat) | ScrollBy(dx: int, dy: int)

  /** `renderLayer_MouseWheel`: whole notches of 120; with Ctrl they zoom in or out, without
      it they scroll 100 per notch, horizontally with Shift. */
  function Wheel(hasPart: bool, byStylus: bool, delta: int, ctrl: bool, shift: bool): (r: WheelEffect)
    ensures !hasPart || byStylus ==> r == WheelIgnored
    ensures hasPart && !byStylus && ctrl ==>
      (delta >= WheelDelta ==> r == ZoomIn(delta / WheelDelta))
      && (delta <= -WheelDelta ==> r == ZoomOut((-delta) / WheelDelta))
      && (-WheelDelta < delta < WheelDelta ==> r == NoZoom)
    ensures hasPart && !byStylus && !ctrl ==>
      r.ScrollBy? && (if shift then r.dy == 0 else r.dx == 0)
      && r.dx + r.dy == -ScrollSpeed * TruncDiv(delta, WheelDelta)
  {
    if !hasPart || byStylus then WheelIgnored
    else
      var notches := TruncDiv(delta, WheelDelta);
      if ctrl then
        if notches > 0 then ZoomIn(notches)
        else if notches < 0 then ZoomOut(-notches)
        else NoZoom
      else
        var d := -ScrollSpeed * notches;
        if shift then ScrollBy(d, 0) else ScrollBy(0, d)
  }

  /** Turning the wheel the other way zooms or scrolls by the same amount the other way. */
  lemma WheelReverses(delta: int, ctrl: bool, shift: bool)
    ensures Wheel(true, false, -delta, ctrl, shift) ==
      match Wheel(true, false, delta, ctrl, shift)
      case ZoomIn(n) => ZoomOut(n)
      case ZoomOut(n) => ZoomIn(n)
      case ScrollBy(dx, dy) => ScrollBy(-dx, -dy)
      case other => other
  {
    TruncDivOdd(delta, WheelDelta);
  }

  // ---------------------------------------------------------------------------------------
  // The control

  datatype PointerTool = PenTool | HandTool | EraserTool | SelectorTool | HighlighterTool

  class EditorUserControl {
    var inputType: Option<PointerType>
    var inputDeviceId: int
    /** The calls made into the editor, oldest first. */
    var calls: seq<EditorCall>
    var activePen: bool
    /** The tool controller's tool per pointer type. */
    var penTool: PointerTool
    var mouseTool: PointerTool
    var touchTool: PointerTool
    var smartGuideEnabled: bool
    var smartGuideVisible: bool
    const hasSmartGuide: bool

    function Input(): InputState
      reads this
    {
      InputState(inputType, inputDeviceId)
    }

    /** Everything but the input state and the call log. */
    function Settings(): (bool, PointerTool, PointerTool, PointerTool, bool, bool)
      reads this
    {
      (activePen, penTool, mouseTool, touchTool, smartGuideEnabled, smartGuideVisible)
    }

    /** While the active pen is on, the finger is the hand tool. */
    predicate ToolsValid()
      reads this
    {
      activePen ==> touchTool == HandTool
    }

    /** The field initializers; the tools are whatever the engine's tool controller starts
        with, so `ToolsValid` holds only once `SetActivePen` has run. */
    constructor (hasSmartGuide: bool, initialPen: PointerTool, initialMouse: PointerTool, initialTouch: PointerTool)
      ensures Input() == Idle && calls == [] && activePen
      ensures penTool == initialPen && mouseTool == initialMouse && touchTool == initialTouch
      ensures smartGuideEnabled && this.hasSmartGuide == hasSmartGuide
    {
      inputType := None;
      inputDeviceId := -1;
      calls := [];
      activePen := true;
      penTool := initialPen;
      mouseTool := initialMouse;
      touchTool := initialTouch;
      smartGuideEnabled := true;
      smartGuideVisible := false;
      this.hasSmartGuide := hasSmartGuide;
    }

    /** The state after a handler: the ownership and the log as `Handle` says. */
    ghost predicate Handled(before: InputState, log: seq<EditorCall>, step: (InputState, Option<EditorCall>))
      reads this
    {
      Input() == step.0 && calls == log + (if step.1.Some? then [step.1.value] else [])
    }

    method Accept(pointer: PointerType, id: int)
      modifies this
      ensures Input() == InputState(Some(pointer), id) && calls == old(calls) + [PointerDown(pointer)]
      ensures Settings() == old(Settings())
    {
      inputType := Some(pointer);
      inputDeviceId := id;
      calls := calls + [PointerDown(pointer)];
    }

    method Release(pointer: PointerType)
      modifies this
      ensures Input() == Idle && calls == old(calls) + [PointerUp(pointer)]
      ensures Settings() == old(Settings())
    {
      calls := calls + [PointerUp(pointer)];
      inputType := None;
      inputDeviceId := -1;
    }

    method TouchDownHandler(hasPart: bool, id: int)
      modifies this
      ensures Handled(old(Input()), old(calls), Handle(old(Input()), hasPart, TouchDown(id)))
      ensures Settings() == old(Settings())
    {
      if !hasPart || inputType.Some? || inputDeviceId != -1 {
        return;
      }
      Accept(Touch, id);
    }

    method TouchMoveHandler(hasPart: bool, id: int)
      modifies this
      ensures Handled(old(Input()), old(calls), Handle(old(Input()), hasPart, TouchMove(id)))
      ensures Settings() == old(Settings())
    {
      if !hasPart || inputType != Some(Touch) || inputDeviceId != id {
        return;
      }
      calls := calls + [PointerMove(Touch)];
    }

    method TouchUpHandler(hasPart: bool, id: int)
      modifies this
      ensures Handled(old(Input()), old(calls), Handle(old(Input()), hasPart, TouchUp(id)))
      ensures Settings() == old(Settings())
    {
      if !hasPart || inputType != Some(Touch) || inputDeviceId != id {
        return;
      }
      Release(Touch);
    }

    method StylusDownHandler(hasPart: bool, id: int, tipOnly: bool, fromStylus: bool)
      modifies this
      ensures Handled(old(Input()), old(calls), Handle(old(Input()), hasPart, StylusDown(id, tipOnly, fromStylus)))
      ensures Settings() == old(Settings())
    {
      if !hasPart || inputType.Some? || inputDeviceId != -1 || !tipOnly || !fromStylus {
        return;
      }
      Accept(Pen, id);
    }

    method StylusMoveHandler(hasPart: bool, id: int, inAir: bool, fromStylus: bool)
      modifies this
      ensures Handled(old(Input()), old(calls), Handle(old(Input()), hasPart, StylusMove(id, inAir, fromStylus)))
      ensures Settings() == old(Settings())
    {
      if !hasPart || inputType != Some(Pen) || inputDeviceId != id || inAir || !fromStylus {
        return;
      }
      calls := calls + [PointerMove(Pen)];
    }

    method StylusUpHandler(hasPart: bool, id: int, fromStylus: bool)
      modifies this
      ensures Handled(old(Input()), old(calls), Handle(old(Input()), hasPart, StylusUp(id, fromStylus)))
      ensures Settings() == old(Settings())
    {
      if !hasPart || inputType != Some(Pen) || !fromStylus {
        return;
      }
      Release(Pen);
    }

    method MouseRightButtonDownHandler(hasPart: bool, byStylus: bool)
      modifies this
      ensures Handled(old(Input()), old(calls), Handle(old(Input()), hasPart, MouseRightButtonDown(byStylus)))
      ensures Settings() == old(Settings())
    {
      if !hasPart {
        return;
      }
      if byStylus {
        calls := calls + [PointerCancel(inputType)];
        inputType := None;
        inputDeviceId := -1;
      }
    }

    method MouseLeftButtonDownHandler(hasPart: bool, byStylus: bool)
      modifies this
      ensures Handled(old(Input()), old(calls), Handle(old(Input()), hasPart, MouseLeftButtonDown(byStylus)))
      ensures Settings() == old(Settings())
    {
      if !hasPart || inputType.Some? || inputDeviceId != -1 || byStylus {
        return;
      }
      Accept(Mouse, -1);
    }

    method MouseMoveHandler(hasPart: bool, byStylus: bool)
      modifies this
      ensures Handled(old(Input()), old(calls), Handle(old(Input()), hasPart, MouseMove(byStylus)))
      ensures Settings() == old(Settings())
    {
      if !hasPart || inputType != Some(Mouse) || inputDeviceId != -1 || byStylus {
        return;
      }
      calls := calls + [PointerMove(Mouse)];
    }

    method MouseLeftButtonUpHandler(hasPart: bool, byStylus: bool)
      modifies this
      ensures Handled(old(Input()), old(calls), Handle(old(Input()), hasPart, MouseLeftButtonUp(byStylus)))
      ensures Settings() == old(Settings())
    {
      if !hasPart || inputType != Some(Mouse) || inputDeviceId != -1 || byStylus {
        return;
      }
      Release(Mouse);
    }

    /** `SetInputTool`: pen and mouse take the tool; the finger takes it only without the
        active pen, so a valid tool assignment stays valid. */
    method SetInputTool(tool: PointerTool)
      modifies this
      ensures old(ToolsValid()) ==> ToolsValid()
      ensures penTool == tool && mouseTool == tool
      ensures touchTool == if activePen then old(touchTool) else tool
      ensures activePen == old(activePen) && Input() == old(Input()) && calls == old(calls)
      ensures smartGuideEnabled == old(smartGuideEnabled) && smartGuideVisible == old(smartGuideVisible)
    {
      penTool := tool;
      mouseTool := tool;
      if !activePen {
        touchTool := tool;
      }
    }

    /** `SetActivePen`: on, the finger becomes the hand; off, it takes the pen's tool. */
    method SetActivePen(enabled: bool)
      modifies this
      ensures ToolsValid()
      ensures activePen == enabled
      ensures touchTool == if enabled then HandTool else penTool
      ensures penTool == old(penTool) && mouseTool == old(mouseTool)
      ensures Input() == old(Input()) && calls == old(calls)
      ensures smartGuideEnabled == old(smartGuideEnabled) && smartGuideVisible == old(smartGuideVisible)
    {
      activePen := enabled;
      if enabled {
        touchTool := HandTool;
      } else {
        touchTool := penTool;
      }
    }

    /** `EnableSmartGuide`: a change of setting; turning it off hides the guide. */
    method EnableSmartGuide(enable: bool)
      modifies this
      ensures smartGuideEnabled == enable
      ensures smartGuideVisible == if old(smartGuideEnabled) != enable && !enable && hasSmartGuide then false else old(smartGuideVisible)
      ensures Input() == old(Input()) && calls == old(calls) && activePen == old(activePen)
      ensures penTool == old(penTool) && mouseTool == old(mouseTool) && touchTool == old(touchTool)
    {
      if smartGuideEnabled == enable {
        return;
      }
      smartGuideEnabled := enable;
      if !smartGuideEnabled && hasSmartGuide {
        smartGuideVisible := false;
      }
    }
  }
}
