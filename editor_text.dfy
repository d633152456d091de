/**
 * The level editor's text field (TextField in level_editor.py): a mouse click
 * focuses or unfocuses it, and while focused the keys edit its text.
 */
module EditorText {
  import opened Geometry

  /** The keys TextField.update tells apart; any other key carries its `event.unicode` text. */
  datatype Key = Backspace | Return | Typed(unicode: string)

  /** A pygame event as TextField.update sees it: a key press or anything else. */
  datatype FieldEvent = KeyDown(key: Key) | OtherInput

  /** The text and the focus flag. */
  datatype Field = Field(text: string, active: bool)

  const InitialText := "world_data"

  /** The focus after the mouse test: a click inside focuses, a click outside unfocuses. */
  function Focus(active: bool, hover: bool, pressed: bool): bool {
    if hover && pressed then true
    else if !hover && pressed then false
    else active
  }

  /** TextField.update for one event, the cursor over the field or not, the left button down or not. */
  function FieldStep(f: Field, hover: bool, pressed: bool, ev: FieldEvent): Field {
    var active := Focus(f.active, hover, pressed);
    if ev.KeyDown? && active then
      match ev.key
      case Backspace => Field(if |f.text| == 0 then f.text else f.text[..|f.text| - 1], active)
      case Return => Field(f.text, false)
      case Typed(u) => Field(f.text + u, active)
    else Field(f.text, active)
  }

  /**
   * The text changes only through a key press while the field is focused:
   * Backspace drops the last character and leaves an empty text empty,
   * Return keeps the text and unfocuses, any other key appends its text.
   */
  lemma FieldKeys(f: Field, hover: bool, pressed: bool, ev: FieldEvent)
    ensures var g := FieldStep(f, hover, pressed, ev); var active := Focus(f.active, hover, pressed);
      && (!ev.KeyDown? || !active ==> g == Field(f.text, active))
      && (ev == KeyDown(Backspace) && active ==>
            g.active && g.text <= f.text && |g.text| == if |f.text| == 0 then 0 else |f.text| - 1)
      && (ev == KeyDown(Return) && active ==> g == Field(f.text, false))
      && (ev.KeyDown? && ev.key.Typed? && active ==> g.active && g.text == f.text + ev.key.unicode)
  {
  }

  /** Typing a character and erasing it again restores the text. */
  lemma TypeThenErase(f: Field, hover: bool, c: char)
    requires f.active
    ensures FieldStep(FieldStep(f, hover, false, KeyDown(Typed([c]))), hover, false, KeyDown(Backspace)) == f
  {
    assert (f.text + [c])[..|f.text|] == f.text;
  }

  /** The concatenation of the typed texts. */
  function Concat(us: seq<string>): string
    decreases |us|
  {
    if |us| == 0 then [] else Concat(us[..|us| - 1]) + us[|us| - 1]
  }

  /** A run of typed keys with the left button up. */
  function TypeAll(f: Field, hover: bool, us: seq<string>): Field
    decreases |us|
  {
    if |us| == 0 then f else FieldStep(TypeAll(f, hover, us[..|us| - 1]), hover, false, KeyDown(Typed(us[|us| - 1])))
  }

  /** While the field is focused, typing appends the keys' texts in order; unfocused, it changes nothing. */
  lemma {:induction false} TypingAppends(f: Field, hover: bool, us: seq<string>)
    ensures TypeAll(f, hover, us) == if f.active then Field(f.text + Concat(us), true) else f
    decreases |us|
  {
    if |us| > 0 {
      TypingAppends(f, hover, us[..|us| - 1]);
      if f.active {
        assert f.text + Concat(us[..|us| - 1]) + us[|us| - 1] == f.text + Concat(us);
      }
    }
  }

  /** TextField: its rectangle, text and focus. */
  class TextField {
    const rect: Rect
    var text: string
    var active: bool

    constructor (rect: Rect)
      ensures this.rect == rect && text == InitialText && !active
    {
      this.rect := rect;
      text := InitialText;
      active := false;
    }

    method Update(pos: Pos, pressed: bool, ev: FieldEvent)
      modifies this`text, this`active
      ensures Field(text, active) == FieldStep(Field(old(text), old(active)), Contains(rect, pos), pressed, ev)
    {
      if Contains(rect, pos) && pressed {
        active := true;
      }
      if !Contains(rect, pos) && pressed {
        active := false;
      }
      if ev.KeyDown? {
        if active {
          match ev.key {
            case Backspace =>
              text := if |text| == 0 then text else text[..|text| - 1];
            case Return =>
              active := false;
            case Typed(u) =>
              text := text + u;
          }
        }
      }
    }
  }
}
