/**
 * The editing state of tripleplay.ui.Field: a text, an insertion cursor and,
 * while the field has keyboard focus, a listener that turns key events into
 * cursor moves and text splices.
 *
 * Text measurement (`getCursorX`) is a parameter `measure`; the platform
 * keyboard is a flag fixed when the field is built.
 */
module Field {

  /** The keys `FieldListener.onKeyDown` tells apart; `Other` is any other key. */
  datatype Key = Home | End | Right | Left | Enter | Escape | Backspace | Delete | Other

  /** `Math.max(0, Math.min(len, pos))`. */
  function Clamp(pos: int, len: nat): (r: nat)
    ensures r <= len
    ensures 0 <= pos <= len ==> r == pos
    ensures pos < 0 ==> r == 0
    ensures pos > len ==> r == len
  {
    if pos < 0 then 0 else if pos > len then len else pos
  }

  /** `cur.substring(0, i) + ch + cur.substring(i)`. */
  function InsertAt(t: string, i: int, ch: char): (r: string)
    requires 0 <= i <= |t|
    ensures |r| == |t| + 1 && r[i] == ch
    ensures forall j :: 0 <= j < i ==> r[j] == t[j]
    ensures forall j :: i < j < |r| ==> r[j] == t[j - 1]
    ensures multiset(r) == multiset(t) + multiset{ch}
  {
    assert t == t[..i] + t[i..];
    t[..i] + [ch] + t[i..]
  }

  /** `cur.substring(0, i) + cur.substring(i + 1)`. */
  function RemoveAt(t: string, i: int): (r: string)
    requires 0 <= i < |t|
    ensures |r| == |t| - 1
    ensures forall j :: 0 <= j < i ==> r[j] == t[j]
    ensures forall j :: i <= j < |r| ==> r[j] == t[j + 1]
    ensures multiset(r) + multiset{t[i]} == multiset(t)
  {
    assert t == t[..i] + [t[i]] + t[i + 1..];
    t[..i] + t[i + 1..]
  }

  /** Removing a character just inserted gives the text back, and so does
      putting back a character just removed. */
  lemma SpliceRoundTrip(t: string, i: int, ch: char)
    requires 0 <= i <= |t|
    ensures RemoveAt(InsertAt(t, i, ch), i) == t
    ensures i < |t| ==> InsertAt(RemoveAt(t, i), i, t[i]) == t
  {
    var x := InsertAt(t, i, ch);
    assert x[..i] == t[..i] && x[i + 1..] == t[i..];
    assert t[..i] + t[i..] == t;
    if i < |t| {
      var y := RemoveAt(t, i);
      assert y[..i] == t[..i] && y[i..] == t[i + 1..];
      assert t[..i] + [t[i]] + t[i + 1..] == t;
    }
  }

  /** `getCursorX`: the x offset of the boundary before character `c`, which
      is 0 for the first boundary and measured text width otherwise. */
  function CursorX(measure: int -> real, c: int): (x: real)
    ensures c == 0 ==> x == 0.0
  {
    if c == 0 then 0.0 else measure(c)
  }

  /** The x offset of the boundary before boundary `k`: 0 before the first. */
  function PrevX(measure: int -> real, k: nat): real {
    if k == 0 then 0.0 else CursorX(measure, k - 1)
  }

  /** The first boundary at or after `from`, below `len`, whose offset is not
      left of `clickX`; `len` if there is none. */
  function FirstReached(len: nat, clickX: real, measure: int -> real, from: nat): (k: nat)
    requires from <= len
    ensures from <= k <= len
    ensures forall j :: from <= j < k ==> CursorX(measure, j) < clickX
    ensures k < len ==> clickX <= CursorX(measure, k)
    decreases len - from
  {
    if from == len then len
    else if clickX > CursorX(measure, from) then FirstReached(len, clickX, measure, from + 1)
    else from
  }

  /** The cursor a click at `clickX` asks for in a text of `len` characters:
      the first boundary not left of the click, or the one before it when
      the click is strictly nearer that one. */
  function ClickedCursor(len: nat, clickX: real, measure: int -> real): (r: int)
    ensures -1 <= r <= len
    ensures r == -1 <==> len > 0 && clickX < 0.0
  {
    var k := FirstReached(len, clickX, measure, 0);
    if k < len && clickX - PrevX(measure, k) < CursorX(measure, k) - clickX then k - 1 else k
  }

  /** With boundary offsets that grow left to right, the click lies between
      the boundary before the first one reached and every later one. */
  lemma ClickBracketed(len: nat, clickX: real, measure: int -> real)
    requires forall i, j :: 0 <= i <= j < len ==> CursorX(measure, i) <= CursorX(measure, j)
    ensures var k := FirstReached(len, clickX, measure, 0);
      && (forall j :: 0 <= j < k ==> CursorX(measure, j) < clickX)
      && (forall j :: k <= j < len ==> clickX <= CursorX(measure, j))
      && (0 < k ==> PrevX(measure, k) < clickX)
  {
    var k := FirstReached(len, clickX, measure, 0);
    if k < len {
      assert clickX <= CursorX(measure, k);
    }
  }

  /** The cursor `focus()` asks for: before the last character, or 0. */
  function FocusCursor(len: nat): (r: nat)
    ensures r <= len
    ensures len > 0 ==> r == len - 1
    ensures len == 0 ==> r == 0
  {
    if len - 1 > 0 then len - 1 else 0
  }

  /** A text input field. */
  class Field {
    var text: string
    var cursor: int
    var listener: FieldListener?
    /** Whether the platform has a hardware keyboard; the cursor layer
        exists exactly then. */
    const hardwareKeyboard: bool

    constructor (initialText: string, hardwareKeyboard: bool)
      ensures text == initialText && cursor == 0 && listener == null
      ensures this.hardwareKeyboard == hardwareKeyboard
    {
      text := initialText;
      cursor := 0;
      listener := null;
      this.hardwareKeyboard := hardwareKeyboard;
    }

    predicate IsFocused()
      reads this
    {
      listener != null
    }

    /** The cursor is a boundary of the text. */
    predicate CursorInRange()
      reads this
    {
      0 <= cursor <= |text|
    }

    /** `text()`: what is laid out, never empty. */
    function DisplayText(): (r: string)
      reads this
      ensures |r| > 0
      ensures |text| > 0 ==> r == text
      ensures |text| == 0 ==> r == " "
    {
      if |text| == 0 then " " else text
    }

    /** The cursor `moveCursor(pos)` leaves: clamped to the text, or
        unchanged without a cursor layer. */
    function MovedTo(pos: int): (c: int)
      reads this
      ensures hardwareKeyboard ==> 0 <= c <= |text| && c == Clamp(pos, |text|)
      ensures hardwareKeyboard && 0 <= pos <= |text| ==> c == pos
      ensures !hardwareKeyboard ==> c == cursor
    {
      if hardwareKeyboard then Clamp(pos, |text|) else cursor
    }

    method MoveCursor(pos: int)
      modifies this`cursor
      ensures cursor == old(MovedTo(pos))
    {
      if !hardwareKeyboard {
        return;
      }
      var ncursor := Clamp(pos, |text|);
      if ncursor != cursor {
        cursor := ncursor;
      }
    }

    /** The scan of `onPointerStart` over the character boundaries, left to
        right, for the cursor nearest a click at `clickX`. */
    method ClickCursor(clickX: real, measure: int -> real) returns (c: int)
      ensures c == ClickedCursor(|text|, clickX, measure)
    {
      c := 0;
      var cx := 0.0;
      while c < |text|
        invariant 0 <= c <= |text|
        invariant cx == PrevX(measure, c)
        invariant FirstReached(|text|, clickX, measure, c) == FirstReached(|text|, clickX, measure, 0)
        decreases |text| - c
      {
        var ncx := CursorX(measure, c);
        if clickX > ncx {
          c := c + 1;
        } else {
          if clickX - cx < ncx - clickX {
            c := c - 1;
          }
          return;
        }
        cx := ncx;
      }
    }

    /** `focus()`: when attached to a root, put the cursor before the last
        character and take the focus. */
    method Focus(attached: bool)
      modifies this
      ensures !attached ==> text == old(text) && cursor == old(cursor) && listener == old(listener)
      ensures text == old(text)
      ensures attached && hardwareKeyboard ==>
        && cursor == FocusCursor(|text|)
        && listener != null && fresh(listener)
        && listener.field == this && listener.initial == text
      ensures attached && !hardwareKeyboard ==> cursor == old(cursor) && listener == old(listener)
    {
      if !attached {
        return;
      }
      var c := FocusCursor(|text|);
      MoveCursor(c);
      StartFocus(c);
    }

    /** `startFocus`: with a hardware keyboard, a new listener that starts
        editing at `c`. */
    method StartFocus(c: int)
      modifies this
      ensures text == old(text)
      ensures hardwareKeyboard ==>
        && cursor == c
        && listener != null && fresh(listener)
        && listener.field == this && listener.initial == text
      ensures !hardwareKeyboard ==> cursor == old(cursor) && listener == old(listener)
    {
      if hardwareKeyboard {
        var l := new FieldListener(this, c);
        listener := l;
      }
    }

    /** `onPointerStart`: an enabled field attached to a root moves the
        cursor to the clicked boundary and takes the focus. The listener then
        stores the unclamped scan result, so a click left of a non-empty text
        leaves the cursor at -1. */
    method OnPointerStart(enabled: bool, attached: bool, clickX: real, measure: int -> real)
      modifies this
      ensures text == old(text)
      ensures !(enabled && attached) ==> cursor == old(cursor) && listener == old(listener)
      ensures enabled && attached && hardwareKeyboard ==>
        && cursor == ClickedCursor(|text|, clickX, measure)
        && listener != null && fresh(listener)
        && listener.field == this && listener.initial == text
      ensures enabled && attached && !hardwareKeyboard ==> cursor == old(cursor) && listener == old(listener)
    {
      if !enabled {
        return;
      }
      if !attached {
        return;
      }
      var c := ClickCursor(clickX, measure);
      MoveCursor(c);
      StartFocus(c);
    }
  }

  /** The keyboard listener of a focused field. */
  class FieldListener {
    const field: Field
    /** The text when editing started, restored by ESCAPE. */
    const initial: string

    constructor (field: Field, cursor: int)
      modifies field`cursor
      ensures this.field == field && initial == field.text
      ensures field.cursor == cursor
    {
      this.field := field;
      initial := field.text;
      new;
      field.cursor := cursor;
    }

    /** `onKeyDown`; the result says whether the browser default is prevented. */
    method OnKeyDown(key: Key) returns (preventDefault: bool)
      requires key == Backspace ==> 0 <= field.cursor <= |field.text|
      requires key == Delete ==> 0 <= field.cursor
      modifies field
      ensures preventDefault <==> key != Other
      ensures key in {Home, End, Right, Left, Backspace, Delete, Other} ==> field.listener == old(field.listener)
      ensures key in {Enter, Escape} ==> field.listener == null
      ensures key in {Home, End, Right, Left, Enter, Other} ==> field.text == old(field.text)
      ensures key in {Enter, Escape, Other} ==> field.cursor == old(field.cursor)
      ensures key == Home ==> field.cursor == old(field.MovedTo(0))
      ensures key == End ==> field.cursor == old(field.MovedTo(|field.text|))
      ensures key == Right ==> field.cursor == old(field.MovedTo(field.cursor + 1))
      ensures key == Left ==> field.cursor == old(field.MovedTo(field.cursor - 1))
      ensures key == Escape ==> field.text == initial
      ensures key == Backspace && old(field.cursor) != 0 ==>
        field.text == RemoveAt(old(field.text), old(field.cursor) - 1) && field.cursor == old(field.cursor) - 1
      ensures key == Backspace && old(field.cursor) == 0 ==> field.text == old(field.text) && field.cursor == 0
      ensures key == Delete && old(field.cursor) < old(|field.text|) ==>
        field.text == RemoveAt(old(field.text), old(field.cursor)) && field.cursor == old(field.cursor)
      ensures key == Delete && old(field.cursor) >= old(|field.text|) ==>
        field.text == old(field.text) && field.cursor == old(field.cursor)
      ensures key != Escape && old(field.CursorInRange()) ==> field.CursorInRange()
    {
      preventDefault := true;
      match key
      case Home =>
        field.MoveCursor(0);
      case End =>
        field.MoveCursor(|field.text|);
      case Right =>
        field.MoveCursor(field.cursor + 1);
      case Left =>
        field.MoveCursor(field.cursor - 1);
      case Enter =>
        field.listener := null;
      case Escape =>
        field.text := initial;
        field.listener := null;
      case Backspace =>
        if field.cursor != 0 {
          var cur := field.text;
          field.text := cur[..field.cursor - 1] + cur[field.cursor..];
          field.cursor := field.cursor - 1;
        }
      case Delete =>
        var cur := field.text;
        if field.cursor < |cur| {
          field.text := cur[..field.cursor] + cur[field.cursor + 1..];
        }
      case Other =>
        preventDefault := false;
    }

    /** `onKeyTyped`: insert `ch` at the cursor and step over it. */
    method OnKeyTyped(ch: char)
      requires 0 <= field.cursor <= |field.text|
      modifies field`text, field`cursor
      ensures field.text == InsertAt(old(field.text), old(field.cursor), ch)
      ensures field.cursor == old(field.cursor) + 1
      ensures |field.text| == old(|field.text|) + 1 && field.CursorInRange()
    {
      var cur := field.text;
      field.text := cur[..field.cursor] + [ch] + cur[field.cursor..];
      field.cursor := field.cursor + 1;
    }
  }
}
