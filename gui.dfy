/** The widget state machines of scripts/basics/gui.py: Button press/release detection, the
    Slider's pointer/value mapping, and the TextBox's focus, editing, overflow offset and
    cursor blink. Drawing is left out; what a widget reads from the mouse, the keyboard, the
    clock and the font renderer is passed in. */
module Gui {
  import opened Geometry

  type Color = (int, int, int)

  /** pygame.Rect.collidepoint: the point lies in [x, x + w) by [y, y + h). A rectangle with
      no width or height contains no point. */
  predicate Collide(r: Rect, px: int, py: int) {
    r.x <= px < r.x + r.w && r.y <= py < r.y + r.h
  }

  // ---------------------------------------------------------------- Button

  /** The fixed settings of a button: its centre, the shadow offset, and its colours. The
      resting text colour is the one the button was created with (text_current_color). */
  datatype ButtonStyle = ButtonStyle(pos: (int, int), shadowSize: (int, int),
                                     buttonColor: Color, buttonHoverColor: Color,
                                     textColor: Color, textHoverColor: Color)

  /** What Button.click changes: the rectangle, the two current colours, and `pressed`. */
  datatype ButtonLook = ButtonLook(rect: Rect, buttonColor: Color, textColor: Color, pressed: bool)

  /** The rest position and the pressed-in position (shifted by the shadow offset). */
  function Rest(st: ButtonStyle, r: Rect): Rect {
    r.WithCenter(st.pos.0, st.pos.1)
  }
  function PressedIn(st: ButtonStyle, r: Rect): Rect {
    r.WithCenter(st.pos.0 + st.shadowSize.0, st.pos.1 + st.shadowSize.1)
  }

  /** One call of Button.click, given whether the mouse is over the aspect-scaled rectangle
      and whether the left button is held. Returns the new look and the click result; the
      source's implicit `None` results are `false`. A click is reported exactly on a release
      over a visible button that was pressed. An invisible button is untouched; away from the
      mouse it rests, unpressed, in its default colours; under the mouse it takes the hover
      colours, and held there it is pressed in by the shadow offset; a click leaves it
      unpressed at rest. The size never changes. */
  function ClickStep(st: ButtonStyle, visible: bool, s: ButtonLook, hover: bool, left: bool): (out: (ButtonLook, bool))
    ensures out.1 <==> visible && hover && !left && s.pressed
    ensures out.0.rect.w == s.rect.w && out.0.rect.h == s.rect.h
    ensures !visible ==> out.0 == s
    ensures visible && !hover ==>
              !out.0.pressed && out.0.rect.Center() == st.pos
              && out.0.buttonColor == st.buttonColor && out.0.textColor == st.textColor
    ensures visible && hover ==> out.0.buttonColor == st.buttonHoverColor && out.0.textColor == st.textHoverColor
    ensures visible && hover && left ==>
              out.0.pressed && out.0.rect.Center() == (st.pos.0 + st.shadowSize.0, st.pos.1 + st.shadowSize.1)
    ensures visible && hover && !left ==> out.0.pressed == (s.pressed && !out.1)
    ensures out.1 ==> out.0.rect.Center() == st.pos
  {
    if !visible then (s, false)
    else if !hover then (ButtonLook(Rest(st, s.rect), st.buttonColor, st.textColor, false), false)
    else
      var lit := s.(buttonColor := st.buttonHoverColor, textColor := st.textHoverColor);
      if left then (lit.(rect := PressedIn(st, s.rect), pressed := true), false)
      else if s.pressed then (lit.(rect := Rest(st, s.rect), pressed := false), true)
      else (lit, false)
  }

  /** A click disarms the button: the very next call cannot click again. */
  lemma NoClickTwiceInARow(st: ButtonStyle, visible: bool, s: ButtonLook, h1: bool, l1: bool, h2: bool, l2: bool)
    requires ClickStep(st, visible, s, h1, l1).1
    ensures !ClickStep(st, visible, ClickStep(st, visible, s, h1, l1).0, h2, l2).1
  {
  }

  /** The clicks reported over a sequence of calls, each given as (hover, left held). */
  function Clicks(st: ButtonStyle, visible: bool, s: ButtonLook, inputs: seq<(bool, bool)>): nat
    decreases |inputs|
  {
    if inputs == [] then 0
    else
      var step := ClickStep(st, visible, s, inputs[0].0, inputs[0].1);
      (if step.1 then 1 else 0) + Clicks(st, visible, step.0, inputs[1..])
  }

  /** The calls in which the left button is held over the button. */
  function Presses(inputs: seq<(bool, bool)>): nat
    decreases |inputs|
  {
    if inputs == [] then 0
    else (if inputs[0].0 && inputs[0].1 then 1 else 0) + Presses(inputs[1..])
  }

  /** Over any sequence of calls there are no more clicks than presses (plus one for a press
      already in progress): every click consumes a press. */
  lemma {:induction false} ClicksNeedPresses(st: ButtonStyle, visible: bool, s: ButtonLook, inputs: seq<(bool, bool)>)
    ensures Clicks(st, visible, s, inputs) <= Presses(inputs) + (if s.pressed then 1 else 0)
    decreases |inputs|
  {
    if inputs != [] {
      var step := ClickStep(st, visible, s, inputs[0].0, inputs[0].1);
      ClicksNeedPresses(st, visible, step.0, inputs[1..]);
    }
  }

  /** Pressing over a visible button and releasing over it clicks exactly once. */
  lemma PressThenReleaseClicksOnce(st: ButtonStyle, s: ButtonLook)
    ensures Clicks(st, true, s, [(true, true), (true, false)]) == 1
  {
    var s1 := ClickStep(st, true, s, true, true).0;
    assert [(true, true), (true, false)][1..] == [(true, false)];
    assert Clicks(st, true, s1, [(true, false)]) == 1 by {
      assert [(true, false)][1..] == [];
    }
  }

  class Button {
    const style: ButtonStyle
    var visible: bool
    var buttonRect: Rect
    var currentButtonColor: Color
    var textColor: Color
    var pressed: bool

    function Look(): ButtonLook
      reads this
    {
      ButtonLook(buttonRect, currentButtonColor, textColor, pressed)
    }

    /** A size-by-size rectangle centred on the position, in the default colours, not pressed. */
    constructor (style: ButtonStyle, size: (int, int), visible: bool)
      ensures this.style == style && this.visible == visible
      ensures buttonRect == Rect(0, 0, size.0, size.1).WithCenter(style.pos.0, style.pos.1)
      ensures currentButtonColor == style.buttonColor && textColor == style.textColor && !pressed
    {
      this.style := style;
      this.visible := visible;
      buttonRect := Rect(0, 0, size.0, size.1).WithCenter(style.pos.0, style.pos.1);
      currentButtonColor := style.buttonColor;
      textColor := style.textColor;
      pressed := false;
    }

    /** Button.click, with the hover test over the aspect-scaled rectangle and the left mouse
        button passed in. */
    method Click(hover: bool, left: bool) returns (clicked: bool)
      modifies this`buttonRect, this`currentButtonColor, this`textColor, this`pressed
      ensures (Look(), clicked) == ClickStep(style, visible, old(Look()), hover, left)
    {
      if visible {
        if hover {
          currentButtonColor := style.buttonHoverColor;
          textColor := style.textHoverColor;
          if left {
            buttonRect := buttonRect.WithCenter(style.pos.0 + style.shadowSize.0, style.pos.1 + style.shadowSize.1);
            pressed := true;
          } else {
            if pressed {
              buttonRect := buttonRect.WithCenter(style.pos.0, style.pos.1);
              pressed := false;
              return true;
            }
          }
        } else {
          buttonRect := buttonRect.WithCenter(style.pos.0, style.pos.1);
          currentButtonColor := style.buttonColor;
          textColor := style.textColor;
          pressed := false;
          return false;
        }
      } else {
        return false;
      }
      return false;
    }
  }

  // ---------------------------------------------------------------- Slider

  /** The pointer position for a value: int(((width - 2 * padding) * value / 100) / multiplier)
      + padding, with true division and truncation toward zero. */
  function PointerFor(width: int, padding: int, multiplier: real, value: int): int
    requires multiplier != 0.0
  {
    Trunc(((width - padding * 2) as real * value as real / 100.0) / multiplier) + padding
  }

  /** With multiplier 1, a value in [0, 100] puts the pointer on the track between the two
      paddings. */
  lemma PointerOnTrack(width: int, padding: int, value: int)
    requires padding * 2 <= width && 0 <= value <= 100
    ensures padding <= PointerFor(width, padding, 1.0, value) <= width - padding
  {
    var span := (width - padding * 2) as real;
    var x := span * value as real / 100.0;
    assert 0.0 <= x <= span by {
      assert span * value as real <= span * 100.0;
    }
    assert x / 1.0 == x;
    var t := Trunc(x);
    assert t as real <= span;
  }

  /** The value read from a pointer offset on a track of the given width:
      round((pointer * 100 / width) * multiplier). */
  function ValueAt(pointer: int, trackWidth: int, multiplier: real): int
    requires trackWidth > 0
  {
    RoundHalfEven((pointer as real * 100.0 / trackWidth as real) * multiplier)
  }

  /** With multiplier 1, any point of the track reads as a value in [0, 100]. */
  lemma ValueInRange(pointer: int, trackWidth: int)
    requires 0 <= pointer < trackWidth
    ensures 0 <= ValueAt(pointer, trackWidth, 1.0) <= 100
  {
    var r := pointer as real * 100.0 / trackWidth as real;
    assert 0.0 <= r < 100.0 by {
      assert pointer as real * 100.0 < trackWidth as real * 100.0;
    }
    assert r * 1.0 == r;
  }

  class Slider {
    /** The width of the slider's rectangle, the padding at each end of the track, and the
        value multiplier. */
    const width: int
    const padding: int
    const multiplier: real
    var pointerPos: int
    /** slider_value only exists once the slider has been clicked. */
    var sliderValue: Option<int>

    /** With multiplier 1 the pointer stays on the track and the value in [0, 100]. */
    ghost predicate OnTrack()
      reads this
    {
      multiplier == 1.0 && padding * 2 <= width
      ==> padding <= pointerPos <= width - padding
          && (sliderValue.Some? ==> 0 <= sliderValue.value <= 100)
    }

    /** Slider.__init__: the pointer is placed for the initial value. A zero multiplier would
        divide by zero. */
    constructor (width: int, padding: int, multiplier: real, initialValue: int)
      requires multiplier != 0.0
      requires multiplier == 1.0 && padding * 2 <= width ==> 0 <= initialValue <= 100
      ensures this.width == width && this.padding == padding && this.multiplier == multiplier
      ensures pointerPos == PointerFor(width, padding, multiplier, initialValue) && sliderValue == None
      ensures OnTrack()
    {
      this.width := width;
      this.padding := padding;
      this.multiplier := multiplier;
      pointerPos := PointerFor(width, padding, multiplier, initialValue);
      sliderValue := None;
      if multiplier == 1.0 && padding * 2 <= width {
        PointerOnTrack(width, padding, initialValue);
      }
    }

    /** Slider.click_slider, with the mouse position, the aspect-scaled track rectangle and
        the left mouse button passed in. Only a held left button over the track changes
        anything: the value is read at the mouse, and the pointer is placed for that value. */
    method ClickSlider(mouseX: int, mouseY: int, track: Rect, left: bool) returns (changed: bool)
      requires multiplier != 0.0 && OnTrack()
      modifies this`pointerPos, this`sliderValue
      ensures OnTrack()
      ensures changed <==> Collide(track, mouseX, mouseY) && left
      ensures changed ==> sliderValue == Some(ValueAt(mouseX - track.x, track.w, multiplier))
                          && pointerPos == PointerFor(width, padding, multiplier, sliderValue.value)
      ensures !changed ==> pointerPos == old(pointerPos) && sliderValue == old(sliderValue)
    {
      if Collide(track, mouseX, mouseY) {
        if left {
          pointerPos := mouseX - track.x;
          var value := ValueAt(pointerPos, track.w, multiplier);
          sliderValue := Some(value);
          pointerPos := PointerFor(width, padding, multiplier, value);
          if multiplier == 1.0 && padding * 2 <= width {
            ValueInRange(mouseX - track.x, track.w);
            PointerOnTrack(width, padding, value);
          }
          return true;
        }
      }
      return false;
    }
  }

  // ---------------------------------------------------------------- TextBox

  datatype Key = Backspace | Return | OtherKey

  /** A keyboard event (its key, and the text it types) or any other event. */
  datatype InputEvent = KeyDown(key: Key, unicode: string) | NotKeyDown

  /** What TextBox.event does to the text once the box has focus: Backspace removes exactly
      the last character and leaves empty text empty; Return and non-key events keep the
      text; any other key appends what it types. */
  function Edited(text: string, e: InputEvent): (r: string)
    ensures e.KeyDown? && e.key == Backspace && text != [] ==> r + [text[|text| - 1]] == text
    ensures e.KeyDown? && e.key == Backspace && text == [] ==> r == []
    ensures e.NotKeyDown? || e.key == Return ==> r == text
    ensures e.KeyDown? && e.key == OtherKey ==> |r| == |text| + |e.unicode| && r[..|text|] == text && r[|text|..] == e.unicode
  {
    match e
    case NotKeyDown => text
    case KeyDown(Backspace, _) => if text == [] then text else text[..|text| - 1]
    case KeyDown(Return, _) => text
    case KeyDown(OtherKey, u) => text + u
  }

  /** Typing one character and then Backspace gives back the text. */
  lemma BackspaceUndoesTyping(text: string, c: char, u: string)
    ensures Edited(Edited(text, KeyDown(OtherKey, [c])), KeyDown(Backspace, u)) == text
  {
    assert (text + [c])[..|text|] == text;
  }

  /** The draw offset: how far the text surface overflows the box, or 0. */
  function Overflow(textWidth: int, boxWidth: int): (offset: int)
    ensures offset >= 0
    ensures offset == 0 <==> textWidth <= boxWidth
    ensures offset > 0 ==> textWidth - offset == boxWidth
  {
    if textWidth > boxWidth then textWidth - boxWidth else 0
  }

  /** The cursor bar is drawn during the first second of focus, and afterwards in the even
      seconds: blink_time <= 1000, or blink_time // 1000 even. */
  predicate BarVisible(blinkTime: int) {
    blinkTime <= 1000 || (blinkTime / 1000) % 2 == 0
  }

  /** After the first second the bar is on for 1000 ms and off for 1000 ms, repeating with
      period 2000; in the first second it is on throughout. */
  lemma {:induction false} BarBlinks(t: int)
    requires t >= 0
    ensures BarVisible(t) <==> t <= 1000 || t % 2000 < 1000
    ensures t > 1000 ==> (BarVisible(t + 2000) <==> BarVisible(t))
  {
    var q := t / 2000;
    var r := t % 2000;
    if r < 1000 {
      DivModUnique(t, 1000, 2 * q, r);
    } else {
      DivModUnique(t, 1000, 2 * q + 1, r - 1000);
    }
    DivModUnique(t + 2000, 2000, q + 1, r);
  }

  /** What a draw does about the cursor: nothing drawn, the bar drawn, or the AttributeError
      the source raises when the focused box was never drawn unfocused (start_blink unset). */
  datatype Cursor = NoBar | Bar | BlinkUnset

  class TextBox {
    /** The box's width (tb_rect.width). */
    const boxWidth: int
    var visible: bool
    var text: string
    var pressed: bool
    var offset: int
    /** The width of the text surface rendered by the last draw (text_surf). */
    var renderedWidth: int
    /** start_blink only exists after the first draw without focus. */
    var startBlink: Option<int>

    /** A new, unfocused, empty box; `emptyWidth` is the width of the rendered empty text. */
    constructor (boxWidth: int, visible: bool, emptyWidth: int)
      ensures this.boxWidth == boxWidth && this.visible == visible
      ensures text == [] && !pressed && offset == 0 && renderedWidth == emptyWidth && startBlink == None
    {
      this.boxWidth := boxWidth;
      this.visible := visible;
      text := [];
      pressed := false;
      offset := 0;
      renderedWidth := emptyWidth;
      startBlink := None;
    }

    /** TextBox.click: a left press inside the box gives it focus, a left press elsewhere takes
        it away, and without a press (or while invisible) focus stays as it was. */
    method Click(inside: bool, left: bool)
      modifies this`pressed
      ensures pressed == if visible && left then inside else old(pressed)
    {
      if visible {
        if inside && left {
          pressed := true;
        } else if left {
          pressed := false;
        }
      }
    }

    /** TextBox.event: a key press edits the text of a focused box; nothing else changes it. */
    method Event(e: InputEvent)
      modifies this`text
      ensures text == if pressed then Edited(old(text), e) else old(text)
    {
      if pressed {
        match e {
          case KeyDown(key, u) =>
            if key == Backspace {
              if text != [] {
                text := text[..|text| - 1];
              }
            } else if key == Return {
            } else {
              text := text + u;
            }
          case NotKeyDown =>
        }
      }
    }

    /** The state part of TextBox.draw, given the width of the text surface this draw renders
        and the tick. The offset is computed from the surface of the previous draw, since the
        surface is re-rendered only after it. Without focus the blink clock restarts; with
        focus the bar shows by BarVisible of the time since then. */
    method Draw(newWidth: int, now: int) returns (cursor: Cursor)
      modifies this`offset, this`renderedWidth, this`startBlink
      ensures !visible ==> offset == old(offset) && renderedWidth == old(renderedWidth)
                           && startBlink == old(startBlink) && cursor == NoBar
      ensures visible ==> offset == Overflow(old(renderedWidth), boxWidth) && renderedWidth == newWidth
      ensures visible && !pressed ==> startBlink == Some(now) && cursor == NoBar
      ensures visible && pressed ==> startBlink == old(startBlink)
      ensures visible && pressed && startBlink.None? ==> cursor == BlinkUnset
      ensures visible && pressed && startBlink.Some? ==>
                (cursor == Bar <==> BarVisible(now - startBlink.value)) && cursor != BlinkUnset
    {
      cursor := NoBar;
      if visible {
        if renderedWidth > boxWidth {
          offset := renderedWidth - boxWidth;
        } else {
          offset := 0;
        }
        renderedWidth := newWidth;
        if pressed {
          match startBlink {
            case None =>
              cursor := BlinkUnset;
            case Some(start) =>
              var blinkTime := now - start;
              if blinkTime <= 1000 {
                cursor := Bar;
              } else if (blinkTime / 1000) % 2 == 0 {
                cursor := Bar;
              }
          }
        } else {
          startBlink := Some(now);
        }
      }
    }
  }
}
