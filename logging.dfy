/** Terminal escape-sequence builder of paluche/logging.py.

    The two module flags `__FORMAT_ENABLED` and `__BLINKING_ENABLED` are an
    explicit `FormatFlags` argument. Python's `None` for an option is
    `Option.None`; a raised `ValueError` is `Failure(ValueError)`.

    The codes are the "Select Graphic Rendition" parameters of ECMA-48
    (ISO/IEC 6429), section 8.3.117, plus the widely implemented "bright"
    colour codes 90-97 and 100-107, which ECMA-48 does not define. */
module Logging {
  import opened Wrappers
  import opened Text

  // ---------------------------------------------------------------------
  // Colors
  // ---------------------------------------------------------------------

  /** `x in list(Color)`: an IntEnum member compares equal to its value. */
  predicate IsColor(x: int) {
    0 <= x < 8
  }

  /** `Color(IntEnum)`: the value is the SGR colour index. */
  type Color = c: int | IsColor(c)

  const BLACK: Color := 0
  const RED: Color := 1
  const GREEN: Color := 2
  const YELLOW: Color := 3
  const BLUE: Color := 4
  const MAGENTA: Color := 5
  const CYAN: Color := 6
  const WHITE: Color := 7

  /** The member name of a colour, `Color(c).name`. */
  function ColorName(c: Color): string {
    match c
    case 0 => "BLACK"
    case 1 => "RED"
    case 2 => "GREEN"
    case 3 => "YELLOW"
    case 4 => "BLUE"
    case 5 => "MAGENTA"
    case 6 => "CYAN"
    case _ => "WHITE"  // 7, the last index `IsColor` allows
  }

  /** The member named `name`, if there is one (case-sensitive). */
  function ColorOfName(name: string): (r: Option<Color>)
    ensures r.Some? ==> ColorName(r.value) == name
  {
    if name == "BLACK" then Some(BLACK)
    else if name == "RED" then Some(RED)
    else if name == "GREEN" then Some(GREEN)
    else if name == "YELLOW" then Some(YELLOW)
    else if name == "BLUE" then Some(BLUE)
    else if name == "MAGENTA" then Some(MAGENTA)
    else if name == "CYAN" then Some(CYAN)
    else if name == "WHITE" then Some(WHITE)
    else None
  }

  /** Name lookup and `.name` are inverse: every member is found by its
      name, and only names of members are found. */
  lemma ColorNameRoundTrip(c: Color, name: string)
    ensures ColorOfName(ColorName(c)) == Some(c)
    ensures ColorOfName(name) == Some(c) <==> ColorName(c) == name
  {
    assert IsColor(c);
  }

  // ---------------------------------------------------------------------
  // Options and flags
  // ---------------------------------------------------------------------

  /** `__FORMAT_ENABLED` and `__BLINKING_ENABLED`. */
  datatype FormatFlags = FormatFlags(formatEnabled: bool, blinkingEnabled: bool)

  const AllEnabled := FormatFlags(true, true)

  /** The bare `ValueError()` raised for a colour that is not a `Color`. */
  datatype FormatError = ValueError

  /** The keyword arguments of `get_color_format`. `fg` and `bg` are any
      integer so that a value outside `Color` can be passed. */
  datatype ColorOptions = ColorOptions(
    reset: bool,
    fg: Option<int>, fgBright: bool,
    bg: Option<int>, bgBright: bool,
    bold: Option<bool>, faint: Option<bool>,
    italic: Option<bool>, underline: Option<bool>)

  /** The default arguments: `reset=True`, everything else unset. */
  const DefaultOptions := ColorOptions(true, None, false, None, false, None, None, None, None)

  predicate ValidColorArg(color: Option<int>) {
    color.None? || IsColor(color.value)
  }

  predicate ValidColors(o: ColorOptions) {
    ValidColorArg(o.fg) && ValidColorArg(o.bg)
  }

  // ---------------------------------------------------------------------
  // The code list and its rendering
  // ---------------------------------------------------------------------

  /** The reset code, emitted first when asked for. */
  function ResetCode(reset: bool): seq<nat> {
    if reset then [0] else []
  }

  /** What `_set_color_code` appends: nothing for an unset colour, else the
      bright or the normal base plus the colour index. */
  function ColorCode(color: Option<int>, bright: bool, enable: nat, disable: nat): seq<nat>
    requires ValidColorArg(color)
  {
    if color.None? then []
    else if bright then [enable + color.value]
    else [disable + color.value]
  }

  /** The bold/faint code: Python truthiness, bold tested first. */
  function IntensityCode(bold: Option<bool>, faint: Option<bool>): seq<nat> {
    if bold.None? && faint.None? then []
    else if bold == Some(true) then [1]
    else if faint == Some(true) then [2]
    else [22]
  }

  /** An on/off code for a tri-state option. */
  function ToggleCode(flag: Option<bool>, on: nat, off: nat): seq<nat> {
    match flag
    case None => []
    case Some(b) => if b then [on] else [off]
  }

  /** The code list `get_color_format` builds, or the error it raises. */
  function ColorCodes(o: ColorOptions): (r: Result<seq<nat>, FormatError>)
    ensures r.Failure? <==> !ValidColors(o)
    ensures r.Success? ==> |r.value| <= 6
    ensures r.Success? ==> (o.reset <==> |r.value| > 0 && r.value[0] == 0)
    ensures r.Success? ==> (r.value == [] <==>
      !o.reset && o.fg.None? && o.bg.None? && o.bold.None? && o.faint.None?
      && o.italic.None? && o.underline.None?)
  {
    if !ValidColors(o) then Failure(ValueError)
    else Success(
      ResetCode(o.reset)
      + ColorCode(o.fg, o.fgBright, 90, 30)
      + ColorCode(o.bg, o.bgBright, 100, 40)
      + IntensityCode(o.bold, o.faint)
      + ToggleCode(o.italic, 3, 23)
      + ToggleCode(o.underline, 4, 24))
  }

  /** `'\033'` */
  const Esc: string := "\U{1B}"

  function CodeStrings(codes: seq<nat>): (r: seq<string>)
    ensures |r| == |codes|
    ensures forall i :: 0 <= i < |codes| ==> r[i] == NatToString(codes[i])
  {
    if codes == [] then [] else [NatToString(codes[0])] + CodeStrings(codes[1..])
  }

  /** `'\033[' + ';'.join(...) + 'm'` when there are codes, else `''`. */
  function Render(codes: seq<nat>): (r: string)
    ensures r == "" <==> codes == []
    ensures codes != [] ==> |r| >= 3 && r[..2] == Esc + "[" && r[|r| - 1] == 'm'
  {
    if codes == [] then "" else Esc + "[" + Join(CodeStrings(codes), ';') + "m"
  }

  /** `get_color_format`: the flag is tested before any colour is checked. */
  function ColorFormat(flags: FormatFlags, o: ColorOptions): (r: Result<string, FormatError>)
    ensures !flags.formatEnabled ==> r == Success("")
    ensures flags.formatEnabled ==> (r.Failure? <==> !ValidColors(o))
  {
    if !flags.formatEnabled then Success("")
    else match ColorCodes(o)
      case Failure(e) => Failure(e)
      case Success(codes) => Success(Render(codes))
  }

  /** The list `codes` of `get_color_format`, which the nested
      `_set_color_code` appends to in place. */
  class CodeList {
    var codes: seq<nat>

    constructor ()
      ensures codes == []
    {
      codes := [];
    }

    method Append(code: nat)
      modifies this
      ensures codes == old(codes) + [code]
    {
      codes := codes + [code];
    }

    /** `_set_color_code(codes, color_base, is_bright, (enable, disable))`;
        `raised` stands for the `ValueError`. */
    method SetColorCode(color: Option<int>, isBright: bool, enable: nat, disable: nat)
      returns (raised: bool)
      modifies this
      ensures raised <==> !ValidColorArg(color)
      ensures !raised ==> codes == old(codes) + ColorCode(color, isBright, enable, disable)
      ensures raised ==> codes == old(codes)
    {
      raised := false;
      if color.Some? {
        if !IsColor(color.value) {
          raised := true;
          return;
        }
        if isBright {
          Append(enable + color.value);
        } else {
          Append(disable + color.value);
        }
      }
    }

    /** The `if italic is not None` and `if underline is not None` blocks:
        `on` when the option is true, `off` when it is false. */
    method SetToggleCode(flag: Option<bool>, on: nat, off: nat)
      modifies this
      ensures codes == old(codes) + ToggleCode(flag, on, off)
    {
      if flag.Some? {
        if flag.value {
          Append(on);
        } else {
          Append(off);
        }
      }
    }
  }

  /** `get_color_format`, step by step as the source builds its list. */
  method GetColorFormat(flags: FormatFlags, o: ColorOptions) returns (r: Result<string, FormatError>)
    ensures r == ColorFormat(flags, o)
  {
    var list := new CodeList();
    if !flags.formatEnabled {
      return Success("");
    }
    if o.reset {
      list.Append(0);
    }
    assert list.codes == ResetCode(o.reset);
    var raised := list.SetColorCode(o.fg, o.fgBright, 90, 30);
    if raised {
      return Failure(ValueError);
    }
    raised := list.SetColorCode(o.bg, o.bgBright, 100, 40);
    if raised {
      return Failure(ValueError);
    }
    ghost var colors := list.codes;
    assert colors == ResetCode(o.reset) + ColorCode(o.fg, o.fgBright, 90, 30) + ColorCode(o.bg, o.bgBright, 100, 40);
    if o.bold.Some? || o.faint.Some? {
      if o.bold == Some(true) {
        list.Append(1);
      } else if o.faint == Some(true) {
        list.Append(2);
      } else {
        list.Append(22);
      }
    }
    assert list.codes == colors + IntensityCode(o.bold, o.faint);
    list.SetToggleCode(o.italic, 3, 23);
    list.SetToggleCode(o.underline, 4, 24);
    assert list.codes == ColorCodes(o).value;
    if |list.codes| > 0 {
      return Success(Esc + "[" + Join(CodeStrings(list.codes), ';') + "m");
    }
    return Success("");
  }

  // ---------------------------------------------------------------------
  // Blink, get_format, format_string
  // ---------------------------------------------------------------------

  /** `get_blink_format(enable)`: the same encoding as the colour codes,
      with code 5 (slow blink) or 25 (steady). */
  function BlinkFormat(flags: FormatFlags, enable: Option<bool>): (s: string)
    ensures s == "" <==> enable.None? || !flags.blinkingEnabled || !flags.formatEnabled
  {
    if enable.None? || !flags.blinkingEnabled || !flags.formatEnabled then ""
    else if enable.value then Esc + "[5m"
    else Esc + "[25m"
  }

  /** `get_format(..., blink=blink)`. */
  function GetFormat(flags: FormatFlags, o: ColorOptions, blink: Option<bool>): (r: Result<string, FormatError>)
    ensures r.Failure? <==> flags.formatEnabled && !ValidColors(o)
    ensures !flags.formatEnabled ==> r == Success("")
    ensures r.Success? ==>
              |r.value| >= |BlinkFormat(flags, blink)|
              && r.value[|r.value| - |BlinkFormat(flags, blink)|..] == BlinkFormat(flags, blink)
  {
    match ColorFormat(flags, o)
    case Failure(e) => Failure(e)
    case Success(s) => Success(s + BlinkFormat(flags, blink))
  }

  /** What `get_format()` with no argument yields: a full reset, or nothing
      when formatting is off. */
  function ResetAll(flags: FormatFlags): string {
    if flags.formatEnabled then Render([0]) else ""
  }

  /** `format_string(*args, **kwargs)`, the arguments already strings. */
  function FormatString(flags: FormatFlags, args: seq<string>, o: ColorOptions, blink: Option<bool>)
    : (r: Result<string, FormatError>)
    ensures |args| == 0 ==> r == Success("")
  {
    if |args| == 0 then Success("")
    else match GetFormat(flags, o, blink)
      case Failure(e) => Failure(e)
      case Success(pre) =>
        match GetFormat(flags, DefaultOptions, None)
        case Failure(e) => Failure(e)
        case Success(post) => Success(pre + Join(args, ' ') + post)
  }

  // ---------------------------------------------------------------------
  // Reading a rendered sequence back
  // ---------------------------------------------------------------------

  function ParseCodes(fields: seq<string>): Option<seq<nat>> {
    if fields == [] then Some([])
    else match ParseNat(fields[0])
      case None => None
      case Some(n) =>
        match ParseCodes(fields[1..])
        case None => None
        case Some(rest) => Some([n] + rest)
  }

  /** Reads `ESC [ n ; n ; ... m` back into its parameter list. */
  function ParseSgr(s: string): Option<seq<nat>> {
    if |s| >= 3 && s[..2] == Esc + "[" && s[|s| - 1] == 'm'
    then ParseCodes(Split(s[2..|s| - 1], ';'))
    else None
  }

  lemma ParseCodesCons(head: string, rest: seq<string>, n: nat, ns: seq<nat>)
    requires ParseNat(head) == Some(n) && ParseCodes(rest) == Some(ns)
    ensures ParseCodes([head] + rest) == Some([n] + ns)
  {
    assert ([head] + rest)[0] == head;
    assert ([head] + rest)[1..] == rest;
  }

  lemma {:induction false} ParseCodeStrings(codes: seq<nat>)
    ensures ParseCodes(CodeStrings(codes)) == Some(codes)
    decreases |codes|
  {
    if codes != [] {
      var head := NatToString(codes[0]);
      var rest := CodeStrings(codes[1..]);
      assert CodeStrings(codes) == [head] + rest;
      ParseNatToString(codes[0]);
      ParseCodeStrings(codes[1..]);
      ParseCodesCons(head, rest, codes[0], codes[1..]);
      assert [codes[0]] + codes[1..] == codes;
    }
  }

  /** The rendered escape sequence carries exactly the code list: reading
      it back gives the list, so no two code lists render alike. */
  lemma RenderRoundTrip(codes: seq<nat>)
    requires codes != []
    ensures ParseSgr(Render(codes)) == Some(codes)
  {
    var fields := CodeStrings(codes);
    forall i | 0 <= i < |fields|
      ensures ';' !in fields[i]
    {
      assert forall k :: 0 <= k < |fields[i]| ==> IsDigit(fields[i][k]);
    }
    SplitJoin(fields, ';');
    var s := Render(codes);
    var body := Join(fields, ';');
    assert s == Esc + "[" + body + "m";
    assert s[2..|s| - 1] == body;
    ParseCodeStrings(codes);
  }

  // ---------------------------------------------------------------------
  // What the codes do to a terminal (ECMA-48 section 8.3.117)
  // ---------------------------------------------------------------------

  datatype Hue = DefaultHue | Indexed(color: Color, bright: bool)

  /** Bold and faint are two values of one attribute, the intensity. */
  datatype Intensity = Normal | Bold | Faint

  datatype Style = Style(fg: Hue, bg: Hue, intensity: Intensity, italic: bool, underline: bool, blink: bool)

  const Plain := Style(DefaultHue, DefaultHue, Normal, false, false, false)

  /** The effect of one SGR parameter; parameters this model does not
      interpret leave the style alone. */
  function ApplyCode(st: Style, code: nat): Style {
    if code == 0 then Plain
    else if code == 1 then st.(intensity := Bold)
    else if code == 2 then st.(intensity := Faint)
    else if code == 22 then st.(intensity := Normal)
    else if code == 3 then st.(italic := true)
    else if code == 23 then st.(italic := false)
    else if code == 4 then st.(underline := true)
    else if code == 24 then st.(underline := false)
    else if code == 5 then st.(blink := true)
    else if code == 25 then st.(blink := false)
    else if 30 <= code <= 37 then st.(fg := Indexed(code - 30, false))
    else if code == 39 then st.(fg := DefaultHue)
    else if 40 <= code <= 47 then st.(bg := Indexed(code - 40, false))
    else if code == 49 then st.(bg := DefaultHue)
    else if 90 <= code <= 97 then st.(fg := Indexed(code - 90, true))
    else if 100 <= code <= 107 then st.(bg := Indexed(code - 100, true))
    else st
  }

  /** A parameter list takes effect left to right. */
  function ApplyCodes(st: Style, codes: seq<nat>): Style
    decreases |codes|
  {
    if codes == [] then st else ApplyCodes(ApplyCode(st, codes[0]), codes[1..])
  }

  lemma {:induction false} ApplyCodesAppend(st: Style, a: seq<nat>, b: seq<nat>)
    ensures ApplyCodes(st, a + b) == ApplyCodes(ApplyCodes(st, a), b)
    decreases |a|
  {
    if a == [] {
      assert a + b == b;
    } else {
      assert (a + b)[0] == a[0];
      assert (a + b)[1..] == a[1..] + b;
      ApplyCodesAppend(ApplyCode(st, a[0]), a[1..], b);
    }
  }

  /** The style the options ask for, starting from `st`: a reset first
      clears everything; a given colour replaces the old one; bold wins
      over faint, faint comes next, and a bold or faint given only as False
      means normal intensity; italic and underline take the given value. */
  function RequestedStyle(st: Style, o: ColorOptions): Style
    requires ValidColors(o)
  {
    var base := if o.reset then Plain else st;
    Style(
      if o.fg.Some? then Indexed(o.fg.value, o.fgBright) else base.fg,
      if o.bg.Some? then Indexed(o.bg.value, o.bgBright) else base.bg,
      if o.bold == Some(true) then Bold
      else if o.faint == Some(true) then Faint
      else if o.bold.Some? || o.faint.Some? then Normal
      else base.intensity,
      o.italic.GetOr(base.italic),
      o.underline.GetOr(base.underline),
      base.blink)
  }

  lemma ApplySingle(st: Style, code: nat)
    ensures ApplyCodes(st, [code]) == ApplyCode(st, code)
  {
    assert [code][1..] == [];
  }

  lemma ApplyOptional(st: Style, codes: seq<nat>)
    requires |codes| <= 1
    ensures ApplyCodes(st, codes) == if codes == [] then st else ApplyCode(st, codes[0])
  {
    if codes != [] {
      assert codes == [codes[0]];
      ApplySingle(st, codes[0]);
    }
  }

  lemma ResetEffect(st: Style, reset: bool)
    ensures ApplyCodes(st, ResetCode(reset)) == if reset then Plain else st
  {
    ApplyOptional(st, ResetCode(reset));
  }

  lemma FgEffect(st: Style, color: Option<int>, bright: bool)
    requires ValidColorArg(color)
    ensures ApplyCodes(st, ColorCode(color, bright, 90, 30))
      == if color.Some? then st.(fg := Indexed(color.value, bright)) else st
  {
    ApplyOptional(st, ColorCode(color, bright, 90, 30));
  }

  lemma BgEffect(st: Style, color: Option<int>, bright: bool)
    requires ValidColorArg(color)
    ensures ApplyCodes(st, ColorCode(color, bright, 100, 40))
      == if color.Some? then st.(bg := Indexed(color.value, bright)) else st
  {
    ApplyOptional(st, ColorCode(color, bright, 100, 40));
  }

  lemma IntensityEffect(st: Style, bold: Option<bool>, faint: Option<bool>)
    ensures ApplyCodes(st, IntensityCode(bold, faint)).intensity ==
      if bold == Some(true) then Bold
      else if faint == Some(true) then Faint
      else if bold.Some? || faint.Some? then Normal
      else st.intensity
    ensures ApplyCodes(st, IntensityCode(bold, faint)) ==
      st.(intensity := ApplyCodes(st, IntensityCode(bold, faint)).intensity)
  {
    ApplyOptional(st, IntensityCode(bold, faint));
  }

  lemma ItalicEffect(st: Style, italic: Option<bool>)
    ensures ApplyCodes(st, ToggleCode(italic, 3, 23)) == st.(italic := italic.GetOr(st.italic))
  {
    ApplyOptional(st, ToggleCode(italic, 3, 23));
  }

  lemma UnderlineEffect(st: Style, underline: Option<bool>)
    ensures ApplyCodes(st, ToggleCode(underline, 4, 24)) == st.(underline := underline.GetOr(st.underline))
  {
    ApplyOptional(st, ToggleCode(underline, 4, 24));
  }

  lemma ApplyCodesAppend6(st: Style, p0: seq<nat>, p1: seq<nat>, p2: seq<nat>, p3: seq<nat>, p4: seq<nat>, p5: seq<nat>)
    ensures ApplyCodes(st, p0 + p1 + p2 + p3 + p4 + p5)
      == ApplyCodes(ApplyCodes(ApplyCodes(ApplyCodes(ApplyCodes(ApplyCodes(st, p0), p1), p2), p3), p4), p5)
  {
    ApplyCodesAppend(st, p0 + p1 + p2 + p3 + p4, p5);
    ApplyCodesAppend(st, p0 + p1 + p2 + p3, p4);
    ApplyCodesAppend(st, p0 + p1 + p2, p3);
    ApplyCodesAppend(st, p0 + p1, p2);
    ApplyCodesAppend(st, p0, p1);
  }

  /** Whatever the terminal's current style, the codes `get_color_format`
      emits put it exactly in the requested style. */
  lemma ColorCodesReachRequestedStyle(st: Style, o: ColorOptions)
    requires ValidColors(o)
    ensures ColorCodes(o).Success?
    ensures ApplyCodes(st, ColorCodes(o).value) == RequestedStyle(st, o)
  {
    ColorCodesParts(o);
    ApplyCodesAppend6(st, Part(o, 0), Part(o, 1), Part(o, 2), Part(o, 3), Part(o, 4), Part(o, 5));
    var s0 := ApplyCodes(st, Part(o, 0));
    ResetEffect(st, o.reset);
    var s1 := ApplyCodes(s0, Part(o, 1));
    FgEffect(s0, o.fg, o.fgBright);
    var s2 := ApplyCodes(s1, Part(o, 2));
    BgEffect(s1, o.bg, o.bgBright);
    var s3 := ApplyCodes(s2, Part(o, 3));
    IntensityEffect(s2, o.bold, o.faint);
    var s4 := ApplyCodes(s3, Part(o, 4));
    ItalicEffect(s3, o.italic);
    var s5 := ApplyCodes(s4, Part(o, 5));
    UnderlineEffect(s4, o.underline);
    ComposeEffects(st, o, s0, s1, s2, s3, s4, s5);
  }

  /** The six effects in a row give the requested style. */
  lemma ComposeEffects(st: Style, o: ColorOptions, s0: Style, s1: Style, s2: Style, s3: Style, s4: Style, s5: Style)
    requires ValidColors(o)
    requires s0 == if o.reset then Plain else st
    requires s1 == if o.fg.Some? then s0.(fg := Indexed(o.fg.value, o.fgBright)) else s0
    requires s2 == if o.bg.Some? then s1.(bg := Indexed(o.bg.value, o.bgBright)) else s1
    requires s3.intensity ==
      if o.bold == Some(true) then Bold
      else if o.faint == Some(true) then Faint
      else if o.bold.Some? || o.faint.Some? then Normal
      else s2.intensity
    requires s3 == s2.(intensity := s3.intensity)
    requires s4 == s3.(italic := o.italic.GetOr(s3.italic))
    requires s5 == s4.(underline := o.underline.GetOr(s4.underline))
    ensures s5 == RequestedStyle(st, o)
  {
  }

  // ---------------------------------------------------------------------
  // Order and shape of the code list
  // ---------------------------------------------------------------------

  /** The slot of a code in the emitted order: reset, foreground,
      background, intensity, italic, underline; 6 for anything else. */
  function Slot(code: nat): nat {
    if code == 0 then 0
    else if 30 <= code <= 37 || 90 <= code <= 97 then 1
    else if 40 <= code <= 47 || 100 <= code <= 107 then 2
    else if code == 1 || code == 2 || code == 22 then 3
    else if code == 3 || code == 23 then 4
    else if code == 4 || code == 24 then 5
    else 6
  }

  /** Strictly increasing slots: the fixed order, at most one code a slot. */
  predicate InSlotOrder(codes: seq<nat>) {
    forall i, j :: 0 <= i < j < |codes| ==> Slot(codes[i]) < Slot(codes[j])
  }

  /** The codes of `codes` that belong to slot `k`, in order. */
  function InSlot(codes: seq<nat>, k: nat): seq<nat>
    decreases |codes|
  {
    if codes == [] then []
    else (if Slot(codes[0]) == k then [codes[0]] else []) + InSlot(codes[1..], k)
  }

  lemma {:induction false} InSlotConcat(a: seq<nat>, b: seq<nat>, k: nat)
    ensures InSlot(a + b, k) == InSlot(a, k) + InSlot(b, k)
    decreases |a|
  {
    if a == [] {
      assert a + b == b;
    } else {
      var head: seq<nat> := if Slot(a[0]) == k then [a[0]] else [];
      assert (a + b)[0] == a[0];
      assert (a + b)[1..] == a[1..] + b;
      assert InSlot(a + b, k) == head + InSlot(a[1..] + b, k);
      InSlotConcat(a[1..], b, k);
      assert InSlot(a, k) == head + InSlot(a[1..], k);
      assert head + (InSlot(a[1..], k) + InSlot(b, k)) == (head + InSlot(a[1..], k)) + InSlot(b, k);
    }
  }

  /** The part of the list each slot comes from. */
  function Part(o: ColorOptions, k: nat): seq<nat>
    requires ValidColors(o)
  {
    if k == 0 then ResetCode(o.reset)
    else if k == 1 then ColorCode(o.fg, o.fgBright, 90, 30)
    else if k == 2 then ColorCode(o.bg, o.bgBright, 100, 40)
    else if k == 3 then IntensityCode(o.bold, o.faint)
    else if k == 4 then ToggleCode(o.italic, 3, 23)
    else if k == 5 then ToggleCode(o.underline, 4, 24)
    else []
  }

  lemma PartShape(o: ColorOptions, k: nat)
    requires ValidColors(o)
    ensures |Part(o, k)| <= 1
    ensures forall i :: 0 <= i < |Part(o, k)| ==> Slot(Part(o, k)[i]) == k
  {
  }

  lemma InSlotOfPart(o: ColorOptions, j: nat, k: nat)
    requires ValidColors(o)
    ensures InSlot(Part(o, j), k) == if j == k then Part(o, j) else []
  {
    PartShape(o, j);
    var p := Part(o, j);
    if p != [] {
      assert p[1..] == [];
      assert InSlot(p, k) == (if Slot(p[0]) == k then [p[0]] else []) + [];
      assert p == [p[0]];
    }
  }

  lemma InSlotConcat6(p0: seq<nat>, p1: seq<nat>, p2: seq<nat>, p3: seq<nat>, p4: seq<nat>, p5: seq<nat>, k: nat)
    ensures InSlot(p0 + p1 + p2 + p3 + p4 + p5, k)
      == InSlot(p0, k) + InSlot(p1, k) + InSlot(p2, k) + InSlot(p3, k) + InSlot(p4, k) + InSlot(p5, k)
  {
    InSlotConcat(p0 + p1 + p2 + p3 + p4, p5, k);
    InSlotConcat(p0 + p1 + p2 + p3, p4, k);
    InSlotConcat(p0 + p1 + p2, p3, k);
    InSlotConcat(p0 + p1, p2, k);
    InSlotConcat(p0, p1, k);
  }

  lemma ColorCodesParts(o: ColorOptions)
    requires ValidColors(o)
    ensures ColorCodes(o).value == Part(o, 0) + Part(o, 1) + Part(o, 2) + Part(o, 3) + Part(o, 4) + Part(o, 5)
  {
  }

  /** Six lists of which only the `k`-th may be non-empty add up to it. */
  lemma OnlyOneSlot(q0: seq<nat>, q1: seq<nat>, q2: seq<nat>, q3: seq<nat>, q4: seq<nat>, q5: seq<nat>, k: nat, target: seq<nat>)
    requires q0 == (if k == 0 then target else [])
    requires q1 == (if k == 1 then target else [])
    requires q2 == (if k == 2 then target else [])
    requires q3 == (if k == 3 then target else [])
    requires q4 == (if k == 4 then target else [])
    requires q5 == (if k == 5 then target else [])
    requires k > 5 ==> target == []
    ensures q0 + q1 + q2 + q3 + q4 + q5 == target
  {
    var e: seq<nat> := [];
    if k == 0 {
      assert target + e + e + e + e + e == target;
    } else if k == 1 {
      assert e + target + e + e + e + e == target;
    } else if k == 2 {
      assert e + e + target + e + e + e == target;
    } else if k == 3 {
      assert e + e + e + target + e + e == target;
    } else if k == 4 {
      assert e + e + e + e + target + e == target;
    } else if k == 5 {
      assert e + e + e + e + e + target == target;
    } else {
      assert e + e + e + e + e + e == target;
    }
  }

  /** The codes of each slot are exactly the part of the options that
      belongs to it: the list holds nothing else. */
  lemma ColorCodesBySlot(o: ColorOptions, k: nat)
    requires ValidColors(o)
    ensures InSlot(ColorCodes(o).value, k) == Part(o, k)
  {
    ColorCodesParts(o);
    InSlotConcat6(Part(o, 0), Part(o, 1), Part(o, 2), Part(o, 3), Part(o, 4), Part(o, 5), k);
    InSlotOfPart(o, 0, k);
    InSlotOfPart(o, 1, k);
    InSlotOfPart(o, 2, k);
    InSlotOfPart(o, 3, k);
    InSlotOfPart(o, 4, k);
    InSlotOfPart(o, 5, k);
    OnlyOneSlot(InSlot(Part(o, 0), k), InSlot(Part(o, 1), k), InSlot(Part(o, 2), k),
      InSlot(Part(o, 3), k), InSlot(Part(o, 4), k), InSlot(Part(o, 5), k), k, Part(o, k));
  }

  lemma OrderedConcat(a: seq<nat>, b: seq<nat>, k: nat)
    requires InSlotOrder(a) && |b| <= 1
    requires forall i :: 0 <= i < |b| ==> Slot(b[i]) == k
    requires forall i :: 0 <= i < |a| ==> Slot(a[i]) < k
    ensures InSlotOrder(a + b)
    ensures forall i :: 0 <= i < |a + b| ==> Slot((a + b)[i]) <= k
  {
    forall i, j | 0 <= i < j < |a + b|
      ensures Slot((a + b)[i]) < Slot((a + b)[j])
    {
      if j >= |a| {
        assert (a + b)[j] == b[j - |a|];
        assert (a + b)[i] == a[i];
      }
    }
  }

  /** The codes come in the fixed order reset, fg, bg, intensity, italic,
      underline, at most one of each, and every one is a code of that list. */
  lemma ColorCodesInOrder(o: ColorOptions)
    requires ValidColors(o)
    ensures InSlotOrder(ColorCodes(o).value)
    ensures forall i :: 0 <= i < |ColorCodes(o).value| ==> Slot(ColorCodes(o).value[i]) < 6
  {
    var p0, p1, p2, p3, p4, p5 := Part(o, 0), Part(o, 1), Part(o, 2), Part(o, 3), Part(o, 4), Part(o, 5);
    assert ColorCodes(o).value == p0 + p1 + p2 + p3 + p4 + p5;
    PartShape(o, 0);
    PartShape(o, 1);
    PartShape(o, 2);
    PartShape(o, 3);
    PartShape(o, 4);
    PartShape(o, 5);
    assert InSlotOrder(p0);
    OrderedConcat(p0, p1, 1);
    OrderedConcat(p0 + p1, p2, 2);
    OrderedConcat(p0 + p1 + p2, p3, 3);
    OrderedConcat(p0 + p1 + p2 + p3, p4, 4);
    OrderedConcat(p0 + p1 + p2 + p3 + p4, p5, 5);
  }

  /** Reset comes first and only when asked for; an intensity code appears
      exactly when bold or faint is given, and it is 1 when bold is true
      (even with faint true), else 2 when faint is true, else 22; italic
      and underline codes appear exactly when given. */
  lemma ColorCodesResetAndIntensity(o: ColorOptions)
    requires ValidColors(o)
    ensures var cs := ColorCodes(o).value;
      && InSlot(cs, 0) == (if o.reset then [0] else [])
      && (o.reset ==> cs[0] == 0)
      && InSlot(cs, 3) ==
           (if o.bold.None? && o.faint.None? then []
            else if o.bold == Some(true) then [1]
            else if o.faint == Some(true) then [2]
            else [22])
      && (InSlot(cs, 4) != [] <==> o.italic.Some?)
      && (InSlot(cs, 5) != [] <==> o.underline.Some?)
  {
    ColorCodesBySlot(o, 0);
    ColorCodesBySlot(o, 3);
    ColorCodesBySlot(o, 4);
    ColorCodesBySlot(o, 5);
  }

  /** The output is empty exactly when formatting is off or nothing was
      asked for, whatever the colour arguments. */
  lemma ColorFormatEmptyIff(flags: FormatFlags, o: ColorOptions)
    ensures ColorFormat(flags, o) == Success("") <==>
      !flags.formatEnabled
      || (!o.reset && o.fg.None? && o.bg.None? && o.bold.None? && o.faint.None?
          && o.italic.None? && o.underline.None?)
  {
  }

  lemma RenderOne(code: nat)
    ensures Render([code]) == Esc + "[" + NatToString(code) + "m"
  {
  }

  lemma RenderTwo(a: nat, b: nat)
    ensures Render([a, b]) == Esc + "[" + NatToString(a) + ";" + NatToString(b) + "m"
  {
    var x, y := NatToString(a), NatToString(b);
    assert CodeStrings([a, b]) == [x, y];
    assert [x, y][1..] == [y];
    assert Join([x, y], ';') == x + ";" + y;
  }

  lemma RenderThree(a: nat, b: nat, c: nat)
    ensures Render([a, b, c]) == Esc + "[" + NatToString(a) + ";" + NatToString(b) + ";" + NatToString(c) + "m"
  {
    var x, y, z := NatToString(a), NatToString(b), NatToString(c);
    assert CodeStrings([a, b, c]) == [x, y, z];
    assert [x, y, z][1..] == [y, z];
    assert [y, z][1..] == [z];
    assert Join([y, z], ';') == y + ";" + z;
    assert Join([x, y, z], ';') == x + ";" + (y + ";" + z);
  }

  /** Worked example: all defaults give a bare reset. */
  lemma ExampleDefaults()
    ensures ColorFormat(AllEnabled, DefaultOptions) == Success(Esc + "[0m")
  {
    var e: seq<nat> := [];
    assert ColorCodes(DefaultOptions).value == [0] + e + e + e + e + e == [0];
    assert NatToString(0) == "0";
    RenderOne(0);
    assert Render([0]) == Esc + "[" + "0" + "m" == Esc + "[0m";
  }

  /** Worked example: red foreground (RED is 1, so code 31). */
  lemma ExampleRed()
    ensures ColorFormat(AllEnabled, DefaultOptions.(fg := Some(RED as int))) == Success(Esc + "[0;31m")
  {
    var e: seq<nat> := [];
    assert ColorCodes(DefaultOptions.(fg := Some(RED as int))).value == [0] + [31] + e + e + e + e == [0, 31];
    assert NatToString(0) == "0";
    assert NatToString(3) == "3";
    assert NatToString(31) == "31";
    RenderTwo(0, 31);
    assert Render([0, 31]) == Esc + "[" + "0" + ";" + "31" + "m" == Esc + "[0;31m";
  }

  /** Worked example: bright red in bold. */
  lemma ExampleBrightRedBold()
    ensures ColorFormat(AllEnabled, DefaultOptions.(fg := Some(RED as int), fgBright := true, bold := Some(true)))
      == Success(Esc + "[0;91;1m")
  {
    var e: seq<nat> := [];
    assert ColorCodes(DefaultOptions.(fg := Some(RED as int), fgBright := true, bold := Some(true))).value
      == [0] + [91] + e + [1] + e + e == [0, 91, 1];
    assert NatToString(0) == "0";
    assert NatToString(9) == "9";
    assert NatToString(91) == "91";
    assert NatToString(1) == "1";
    RenderThree(0, 91, 1);
    assert Render([0, 91, 1]) == Esc + "[" + "0" + ";" + "91" + ";" + "1" + "m" == Esc + "[0;91;1m";
  }

  /** Worked example: bold switched off without a reset. */
  lemma ExampleBoldOff()
    ensures ColorFormat(AllEnabled, DefaultOptions.(reset := false, bold := Some(false))) == Success(Esc + "[22m")
  {
    var e: seq<nat> := [];
    assert ColorCodes(DefaultOptions.(reset := false, bold := Some(false))).value == e + e + e + [22] + e + e == [22];
    assert NatToString(2) == "2";
    assert NatToString(22) == "22";
    RenderOne(22);
    assert Render([22]) == Esc + "[" + "22" + "m" == Esc + "[22m";
  }

  /** A blink sequence reads back as one code, which switches blinking as
      asked and leaves everything else alone. */
  lemma BlinkFormatSetsBlink(flags: FormatFlags, enable: bool, st: Style)
    requires flags.formatEnabled && flags.blinkingEnabled
    ensures var s := BlinkFormat(flags, Some(enable));
      ParseSgr(s).Some? && ApplyCodes(st, ParseSgr(s).value) == st.(blink := enable)
  {
    var c: nat := if enable then 5 else 25;
    assert NatToString(2) == "2";
    assert NatToString(5) == "5";
    assert NatToString(25) == "25";
    RenderOne(c);
    assert BlinkFormat(flags, Some(enable)) == Render([c]);
    RenderRoundTrip([c]);
    ApplySingle(st, c);
  }

  /** `get_format` is the colour part followed by the blink part; with
      formatting off it is empty whatever the options, with only blinking
      off it is the colour part alone. */
  lemma GetFormatParts(flags: FormatFlags, o: ColorOptions, blink: Option<bool>)
    ensures ColorFormat(flags, o).Success? ==>
      GetFormat(flags, o, blink) == Success(ColorFormat(flags, o).value + BlinkFormat(flags, blink))
    ensures ColorFormat(flags, o).Failure? ==> GetFormat(flags, o, blink) == Failure(ValueError)
    ensures !flags.formatEnabled ==> GetFormat(flags, o, blink) == Success("")
    ensures !flags.blinkingEnabled ==> GetFormat(flags, o, blink) == ColorFormat(flags, o)
  {
    if ColorFormat(flags, o).Success? {
      var c := ColorFormat(flags, o).value;
      if !flags.formatEnabled || !flags.blinkingEnabled {
        assert BlinkFormat(flags, blink) == "";
        assert c + "" == c;
      }
    }
  }

  /** `get_format()` with no argument never fails and is a full reset. */
  lemma GetFormatDefault(flags: FormatFlags)
    ensures GetFormat(flags, DefaultOptions, None) == Success(ResetAll(flags))
  {
    GetFormatParts(flags, DefaultOptions, None);
    if flags.formatEnabled {
      var e: seq<nat> := [];
      assert ColorCodes(DefaultOptions).value == [0] + e + e + e + e + e == [0];
      assert ColorFormat(flags, DefaultOptions) == Success(Render([0]));
      assert BlinkFormat(flags, None) == "";
      assert Render([0]) + "" == Render([0]);
    }
  }

  /** With arguments, `format_string` is the requested format, the
      arguments joined by single spaces, then a full reset; a bad colour
      raises; with formatting off the output is the plain joined text. */
  lemma FormatStringShape(flags: FormatFlags, args: seq<string>, o: ColorOptions, blink: Option<bool>)
    requires |args| > 0
    ensures !ValidColors(o) && flags.formatEnabled ==>
      FormatString(flags, args, o, blink) == Failure(ValueError)
    ensures ValidColors(o) || !flags.formatEnabled ==>
      FormatString(flags, args, o, blink) ==
        Success(GetFormat(flags, o, blink).value + Join(args, ' ') + ResetAll(flags))
    ensures !flags.formatEnabled ==> FormatString(flags, args, o, blink) == Success(Join(args, ' '))
  {
    GetFormatDefault(flags);
    GetFormatParts(flags, o, blink);
    if !flags.formatEnabled {
      assert "" + Join(args, ' ') + "" == Join(args, ' ');
    }
  }

  /** Formatted output always leaves the terminal in the plain style. */
  lemma FormatStringEndsPlain(flags: FormatFlags, args: seq<string>, o: ColorOptions, blink: Option<bool>, st: Style)
    requires flags.formatEnabled && ValidColors(o) && |args| > 0
    ensures var out := FormatString(flags, args, o, blink);
      && out.Success?
      && |out.value| >= |ResetAll(flags)|
      && out.value[|out.value| - |ResetAll(flags)|..] == ResetAll(flags)
      && ParseSgr(ResetAll(flags)) == Some([0])
      && ApplyCodes(st, [0]) == Plain
  {
    FormatStringShape(flags, args, o, blink);
    RenderRoundTrip([0]);
    ApplySingle(st, 0);
  }
}
