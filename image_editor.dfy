// The adjustment state and undo/redo history of the image editor
// (src/components/properties/ImageEditor.tsx). The crop geometry and the
// canvas pipeline that renders the result are not part of this model.

module ImageEditor {
  import opened Js

  datatype Flip = Flip(horizontal: bool, vertical: bool)

  /** EditorState: the filters, the rotation in degrees, the flips and the zoom. */
  datatype EditorState = EditorState(
    brightness: int, contrast: int, saturation: int, rotation: int, flip: Flip, zoom: real)

  /** The editor at one moment: the shown state, the crop offset, the history
      and its cursor. */
  datatype Editor = Editor(cur: EditorState, crop: (real, real), history: seq<EditorState>, index: int)

  /** The values the editor opens with, which resetFilters restores. */
  function Neutral(): EditorState
  {
    EditorState(100, 100, 100, 0, Flip(false, false), 1.0)
  }

  /** The cursor points into the history. */
  predicate Valid(e: Editor)
  {
    0 <= e.index < |e.history|
  }

  /** A rotation the buttons can produce and a zoom inside the buttons' clamp. */
  predicate InRange(s: EditorState)
  {
    0 <= s.rotation < 360 && 1.0 <= s.zoom <= 3.0
  }

  /** Every state the editor holds or remembers is InRange. */
  predicate Tidy(e: Editor)
  {
    InRange(e.cur) && forall k :: 0 <= k < |e.history| ==> InRange(e.history[k])
  }

  /** The editor after mount: the history holds exactly the current state. */
  function Opened(): (e: Editor)
    ensures Valid(e) && Tidy(e)
  {
    Editor(Neutral(), (0.0, 0.0), [Neutral()], 0)
  }

  predicate CanUndo(e: Editor)
  {
    e.index > 0
  }

  predicate CanRedo(e: Editor)
  {
    e.index < |e.history| - 1
  }

  // -------------------------------------------------------------- history

  /** saveToHistory(s): the entries after the cursor are dropped, s is
      appended and the cursor moves onto it. */
  function Saved(e: Editor, s: EditorState): Editor
    requires Valid(e)
  {
    e.(history := e.history[..e.index + 1] + [s], index := e.index + 1)
  }

  /** applyState(s) */
  function Applied(e: Editor, s: EditorState): Editor
  {
    e.(cur := s)
  }

  /** handleUndo */
  function Undo(e: Editor): Editor
    requires Valid(e)
  {
    if CanUndo(e) then Applied(e, e.history[e.index - 1]).(index := e.index - 1) else e
  }

  /** handleRedo */
  function Redo(e: Editor): Editor
    requires Valid(e)
  {
    if CanRedo(e) then Applied(e, e.history[e.index + 1]).(index := e.index + 1) else e
  }

  // ------------------------------------------------------------- handlers

  /** The rotate button. */
  function Rotate(e: Editor): Editor
    requires Valid(e)
  {
    var s := e.cur.(rotation := Rem(e.cur.rotation + 90, 360));
    Saved(e.(cur := s), s)
  }

  /** The flip button. */
  function FlipHorizontal(e: Editor): Editor
    requires Valid(e)
  {
    var s := e.cur.(flip := e.cur.flip.(horizontal := !e.cur.flip.horizontal));
    Saved(e.(cur := s), s)
  }

  function Max(a: real, b: real): real
  {
    if a >= b then a else b
  }

  function Min(a: real, b: real): real
  {
    if a <= b then a else b
  }

  /** Zoom out: 0.2 less, never below 1. */
  function ZoomOut(e: Editor): Editor
    requires Valid(e)
  {
    var s := e.cur.(zoom := Max(1.0, e.cur.zoom - 0.2));
    Saved(e.(cur := s), s)
  }

  /** Zoom in: 0.2 more, never above 3. */
  function ZoomIn(e: Editor): Editor
    requires Valid(e)
  {
    var s := e.cur.(zoom := Min(3.0, e.cur.zoom + 0.2));
    Saved(e.(cur := s), s)
  }

  /** handleSliderChange: moves one filter without touching the history. */
  function SliderChange(e: Editor, kind: string, value: int): Editor
  {
    match kind
      case "brightness" => e.(cur := e.cur.(brightness := value))
      case "contrast" => e.(cur := e.cur.(contrast := value))
      case "saturation" => e.(cur := e.cur.(saturation := value))
      case _ => e
  }

  /** handleSliderRelease: records the shown state. */
  function SliderRelease(e: Editor): Editor
    requires Valid(e)
  {
    Saved(e, e.cur)
  }

  /** resetFilters */
  function Reset(e: Editor): Editor
    requires Valid(e)
  {
    Saved(e.(cur := Neutral(), crop := (0.0, 0.0)), Neutral())
  }

  // ------------------------------------------------------------ properties

  /** Saving keeps the entries up to the cursor, puts s last, and leaves
      nothing to redo. */
  lemma SavedSpec(e: Editor, s: EditorState)
    requires Valid(e)
    ensures var r := Saved(e, s);
      Valid(r) && r.index == |r.history| - 1 && r.history[r.index] == s &&
      r.history[..r.index] == e.history[..e.index + 1] && !CanRedo(r) && r.cur == e.cur
  {
    var r := Saved(e, s);
    assert r.history[..r.index] == e.history[..e.index + 1];
  }

  /** Saving after an undo discards the undone entries. */
  lemma SaveAfterUndoDropsRedo(e: Editor, s: EditorState)
    requires Valid(e) && CanUndo(e)
    ensures |Saved(Undo(e), s).history| == e.index + 1
    ensures Saved(Undo(e), s).history == e.history[..e.index] + [s]
  {
  }

  /** Undo at the first entry does nothing; otherwise it shows the previous
      entry and steps the cursor back. */
  lemma UndoSpec(e: Editor)
    requires Valid(e)
    ensures !CanUndo(e) ==> Undo(e) == e
    ensures CanUndo(e) ==> Undo(e).cur == e.history[e.index - 1] && Undo(e).index == e.index - 1
    ensures Undo(e).history == e.history && Valid(Undo(e))
  {
  }

  /** Redo at the last entry does nothing; otherwise it shows the next entry
      and steps the cursor forward. */
  lemma RedoSpec(e: Editor)
    requires Valid(e)
    ensures !CanRedo(e) ==> Redo(e) == e
    ensures CanRedo(e) ==> Redo(e).cur == e.history[e.index + 1] && Redo(e).index == e.index + 1
    ensures Redo(e).history == e.history && Valid(Redo(e))
  {
  }

  /** An undo followed by a redo returns to the same cursor and shows the
      entry under it; when the shown state was that entry, nothing changed. */
  lemma UndoThenRedo(e: Editor)
    requires Valid(e) && CanUndo(e)
    ensures Redo(Undo(e)).index == e.index && Redo(Undo(e)).history == e.history
    ensures Redo(Undo(e)).cur == e.history[e.index]
    ensures e.cur == e.history[e.index] ==> Redo(Undo(e)) == e
  {
  }

  /** A redo followed by an undo returns to the same cursor. */
  lemma RedoThenUndo(e: Editor)
    requires Valid(e) && CanRedo(e)
    ensures Undo(Redo(e)).index == e.index && Undo(Redo(e)).history == e.history
    ensures Undo(Redo(e)).cur == e.history[e.index]
  {
  }

  /** Every handler keeps the editor InRange: rotations stay in [0, 360) and
      the zoom in [1, 3]. */
  lemma HandlersKeepTidy(e: Editor, kind: string, value: int)
    requires Valid(e) && Tidy(e)
    ensures Tidy(Rotate(e)) && Tidy(FlipHorizontal(e)) && Tidy(ZoomOut(e)) && Tidy(ZoomIn(e))
    ensures Tidy(SliderChange(e, kind, value)) && Tidy(SliderRelease(e)) && Tidy(Reset(e))
    ensures Tidy(Undo(e)) && Tidy(Redo(e))
  {
    forall s: EditorState | InRange(s) ensures Tidy(Saved(e, s)) {
      SavedEntries(e, s);
    }
    assert InRange(Rotate(e).cur);
    SavedEntries(e.(cur := Rotate(e).cur), Rotate(e).cur);
    SavedEntries(e.(cur := FlipHorizontal(e).cur), FlipHorizontal(e).cur);
    SavedEntries(e.(cur := ZoomOut(e).cur), ZoomOut(e).cur);
    SavedEntries(e.(cur := ZoomIn(e).cur), ZoomIn(e).cur);
    SavedEntries(e.(cur := Neutral(), crop := (0.0, 0.0)), Neutral());
  }

  lemma SavedEntries(e: Editor, s: EditorState)
    requires Valid(e) && InRange(s) && InRange(e.cur)
    requires forall k :: 0 <= k < |e.history| ==> InRange(e.history[k])
    ensures Tidy(Saved(e, s))
  {
    var h := Saved(e, s).history;
    forall k | 0 <= k < |h| ensures InRange(h[k]) {
      if k <= e.index {
        assert h[k] == e.history[k];
      }
    }
  }

  /** Four presses of the rotate button from a rotation in [0, 360) give the
      same rotation back. */
  lemma RotateFourTimes(e: Editor)
    requires Valid(e) && 0 <= e.cur.rotation < 360
    ensures Rotate(Rotate(Rotate(Rotate(e)))).cur.rotation == e.cur.rotation
  {
    var r := e.cur.rotation;
    assert Rotate(e).cur.rotation == (r + 90) % 360;
  }

  /** A zoom press moves by 0.2 when that keeps the zoom inside [1, 3], and
      stops at the bound otherwise. */
  lemma ZoomSteps(e: Editor)
    requires Valid(e)
    ensures e.cur.zoom >= 1.2 ==> ZoomOut(e).cur.zoom == e.cur.zoom - 0.2
    ensures e.cur.zoom < 1.2 ==> ZoomOut(e).cur.zoom == 1.0
    ensures e.cur.zoom <= 2.8 ==> ZoomIn(e).cur.zoom == e.cur.zoom + 0.2
    ensures e.cur.zoom > 2.8 ==> ZoomIn(e).cur.zoom == 3.0
  {
  }

  /** Reset shows the neutral state, recentres the crop and records the
      neutral state as the newest entry. */
  lemma ResetSpec(e: Editor)
    requires Valid(e)
    ensures Reset(e).cur == Neutral() && Reset(e).crop == (0.0, 0.0)
    ensures Reset(e).history[Reset(e).index] == Neutral() && !CanRedo(Reset(e))
  {
    SavedSpec(e.(cur := Neutral(), crop := (0.0, 0.0)), Neutral());
  }

  /** A slider move changes only its own filter and leaves the history alone. */
  lemma SliderChangeSpec(e: Editor, value: int)
    ensures SliderChange(e, "brightness", value) == e.(cur := e.cur.(brightness := value))
    ensures SliderChange(e, "contrast", value).history == e.history
    ensures SliderChange(e, "contrast", value).cur.brightness == e.cur.brightness
    ensures SliderChange(e, "other", value) == e
  {
  }

  // ------------------------------------------------------------ component

  /** The component's state slots. */
  class ImageEditorView {
    var brightness: int
    var contrast: int
    var saturation: int
    var rotation: int
    var flip: Flip
    var zoom: real
    var crop: (real, real)
    var history: seq<EditorState>
    var historyIndex: int

    function Current(): EditorState
      reads this
    {
      EditorState(brightness, contrast, saturation, rotation, flip, zoom)
    }

    function Snapshot(): Editor
      reads this
    {
      Editor(Current(), crop, history, historyIndex)
    }

    /** The initial slots followed by the mount effect. */
    constructor ()
      ensures Snapshot() == Opened()
    {
      brightness, contrast, saturation, rotation := 100, 100, 100, 0;
      flip, zoom, crop := Flip(false, false), 1.0, (0.0, 0.0);
      history, historyIndex := [], -1;
      new;
      if |history| == 0 {
        history := [Current()];
        historyIndex := 0;
      }
    }

    method ApplyState(s: EditorState)
      modifies this
      ensures Snapshot() == Applied(old(Snapshot()), s)
    {
      brightness, contrast, saturation := s.brightness, s.contrast, s.saturation;
      rotation, flip, zoom := s.rotation, s.flip, s.zoom;
    }

    method SaveToHistory(s: EditorState)
      requires Valid(Snapshot())
      modifies this
      ensures Snapshot() == Saved(old(Snapshot()), s)
    {
      history := history[..historyIndex + 1] + [s];
      historyIndex := historyIndex + 1;
    }

    method HandleUndo()
      requires Valid(Snapshot())
      modifies this
      ensures Snapshot() == Undo(old(Snapshot()))
    {
      if historyIndex > 0 {
        ApplyState(history[historyIndex - 1]);
        historyIndex := historyIndex - 1;
      }
    }

    method HandleRedo()
      requires Valid(Snapshot())
      modifies this
      ensures Snapshot() == Redo(old(Snapshot()))
    {
      if historyIndex < |history| - 1 {
        ApplyState(history[historyIndex + 1]);
        historyIndex := historyIndex + 1;
      }
    }

    method RotateClick()
      requires Valid(Snapshot())
      modifies this
      ensures Snapshot() == Rotate(old(Snapshot()))
    {
      var nextRot := Rem(rotation + 90, 360);
      rotation := nextRot;
      SaveToHistory(Current());
    }

    method FlipClick()
      requires Valid(Snapshot())
      modifies this
      ensures Snapshot() == FlipHorizontal(old(Snapshot()))
    {
      flip := flip.(horizontal := !flip.horizontal);
      SaveToHistory(Current());
    }

    method ZoomOutClick()
      requires Valid(Snapshot())
      modifies this
      ensures Snapshot() == ZoomOut(old(Snapshot()))
    {
      zoom := Max(1.0, zoom - 0.2);
      SaveToHistory(Current());
    }

    method ZoomInClick()
      requires Valid(Snapshot())
      modifies this
      ensures Snapshot() == ZoomIn(old(Snapshot()))
    {
      zoom := Min(3.0, zoom + 0.2);
      SaveToHistory(Current());
    }

    method HandleSliderChange(kind: string, value: int)
      modifies this
      ensures Snapshot() == SliderChange(old(Snapshot()), kind, value)
    {
      match kind
      case "brightness" => brightness := value;
      case "contrast" => contrast := value;
      case "saturation" => saturation := value;
      case _ =>
    }

    method HandleSliderRelease()
      requires Valid(Snapshot())
      modifies this
      ensures Snapshot() == SliderRelease(old(Snapshot()))
    {
      SaveToHistory(Current());
    }

    method ResetFilters()
      requires Valid(Snapshot())
      modifies this
      ensures Snapshot() == Reset(old(Snapshot()))
    {
      ApplyState(Neutral());
      crop := (0.0, 0.0);
      SaveToHistory(Neutral());
    }
  }
}
