/**
 * The console transport: one coloured line per record, built from ANSI SGR
 * escape sequences, followed by the metadata (when truthy) and the stack
 * trace in red (when truthy). Standard output is modelled as the sequence of
 * `console.log` calls made so far, each with its text and, for the metadata
 * line, the value handed to `console.log` as a second argument.
 */
module ConsoleOutput {
  import opened Common
  import opened Strings
  import opened LogInterfaces

  const Esc: char := '\U{1B}'

  /** A Select Graphic Rendition sequence `ESC [ code m`. */
  function Sgr(code: string): string {
    [Esc, '['] + code + "m"
  }

  const ResetCode := "0"
  const RedCode := "31"
  const GreenCode := "32"
  const YellowCode := "33"
  const CyanCode := "36"
  const GrayCode := "90"

  /** `${color}${text}${reset}`: a text in a colour, the colour reset after it. */
  function Colored(code: string, text: string): string {
    Sgr(code) + text + Sgr(ResetCode)
  }

  /** The colour of each severity: DEBUG gray, INFO cyan, WARN yellow, ERROR red. */
  function LevelColorCode(level: LogLevel): (code: string)
    ensures AllDigits(code) && |code| == 2
  {
    match level
    case DEBUG => GrayCode
    case INFO => CyanCode
    case WARN => YellowCode
    case ERROR => RedCode
  }

  /** Each severity is shown in its own colour. */
  lemma {:induction false} LevelColorsDistinct(a: LogLevel, b: LogLevel)
    ensures a != b <==> Sgr(LevelColorCode(a)) != Sgr(LevelColorCode(b))
  {
    if a != b {
      var sa, sb := Sgr(LevelColorCode(a)), Sgr(LevelColorCode(b));
      assert sa[2..4] == LevelColorCode(a) && sb[2..4] == LevelColorCode(b);
    }
  }

  /** One `console.log` call: its first argument and, if any, its second. */
  datatype ConsoleCall = ConsoleCall(text: string, value: Option<Json>)

  /**
   * `timestamp | LEVEL | filePath | message`: the timestamp in gray, the
   * level name padded to five characters and the message in the level's
   * colour, the file path in green, each segment followed by a reset.
   */
  function MainLine(d: LogData): string {
    var color := LevelColorCode(d.level);
    Colored(GrayCode, d.timestamp) + " | " + Colored(color, PadEnd(d.level.Name(), 5)) + " | "
    + Colored(GreenCode, d.filePath) + " | " + Colored(color, d.message)
  }

  /** What one `log` call writes, in order. */
  function Render(d: LogData): seq<ConsoleCall> {
    [ConsoleCall(MainLine(d), None)]
    + (if MetaTruthy(d.meta) then [ConsoleCall(Colored(GrayCode, "Meta:"), d.meta)] else [])
    + (if TextTruthy(d.stack) then [ConsoleCall(Colored(RedCode, d.stack.value), None)] else [])
  }

  /** The text a terminal shows: the SGR sequences removed. */
  function Visible(s: string): string
    decreases |s|
  {
    if |s| == 0 then ""
    else if s[0] == Esc && |s| >= 2 && s[1] == '[' && 2 + LeadingDigits(s[2..]) < |s| && s[2 + LeadingDigits(s[2..])] == 'm'
    then Visible(s[3 + LeadingDigits(s[2..])..])
    else [s[0]] + Visible(s[1..])
  }

  lemma {:induction false} VisibleSgr(code: string, rest: string)
    requires AllDigits(code)
    ensures Visible(Sgr(code) + rest) == Visible(rest)
  {
    var t := Sgr(code) + rest;
    assert t[2..] == code + ("m" + rest);
    LeadingDigitsOf(code, "m" + rest);
    assert t[2 + |code|] == 'm';
    assert t[3 + |code|..] == rest;
  }

  lemma {:induction false} VisiblePlain(a: string, rest: string)
    requires Esc !in a
    ensures Visible(a + rest) == a + Visible(rest)
  {
    if |a| > 0 {
      assert (a + rest)[0] == a[0];
      assert (a + rest)[1..] == a[1..] + rest;
      VisiblePlain(a[1..], rest);
      assert [a[0]] + a[1..] == a;
    } else {
      assert a + rest == rest;
    }
  }

  lemma {:induction false} PaddedNameHasNoEsc(level: LogLevel)
    ensures Esc !in PadEnd(level.Name(), 5)
  {
    var r := PadEnd(level.Name(), 5);
    forall i | 0 <= i < |r|
      ensures r[i] != Esc
    {
      if i < |level.Name()| {
        assert r[i] == r[..|level.Name()|][i];
      }
    }
  }

  /** A segment in a colour, followed by a reset, shows as its text. */
  lemma {:induction false} VisibleColored(code: string, text: string, rest: string)
    requires AllDigits(code) && Esc !in text
    ensures Visible(Colored(code, text) + rest) == text + Visible(rest)
  {
    VisibleSgr(ResetCode, rest);
    VisiblePlain(text, Sgr(ResetCode) + rest);
    VisibleSgr(code, text + (Sgr(ResetCode) + rest));
    assert Colored(code, text) + rest == Sgr(code) + (text + (Sgr(ResetCode) + rest));
  }

  /** A coloured segment followed by ` | ` and more shows as its text, ` | `, and the rest. */
  lemma {:induction false} VisibleField(code: string, text: string, rest: string)
    requires AllDigits(code) && Esc !in text
    ensures Visible(Colored(code, text) + " | " + rest) == text + " | " + Visible(rest)
  {
    VisiblePlain(" | ", rest);
    VisibleColored(code, text, " | " + rest);
    assert Colored(code, text) + " | " + rest == Colored(code, text) + (" | " + rest);
  }

  lemma {:induction false} VisibleLastTwo(c3: string, t3: string, c4: string, t4: string)
    requires AllDigits(c3) && AllDigits(c4) && Esc !in t3 && Esc !in t4
    ensures Visible(Colored(c3, t3) + " | " + Colored(c4, t4)) == t3 + " | " + t4
  {
    var m := Colored(c4, t4);
    VisibleColored(c4, t4, "");
    assert m + "" == m;
    VisibleField(c3, t3, m);
  }

  lemma {:induction false} VisibleLastThree(c2: string, t2: string, c3: string, t3: string, c4: string, t4: string)
    requires AllDigits(c2) && AllDigits(c3) && AllDigits(c4)
    requires Esc !in t2 && Esc !in t3 && Esc !in t4
    ensures Visible(Colored(c2, t2) + " | " + Colored(c3, t3) + " | " + Colored(c4, t4)) == t2 + " | " + t3 + " | " + t4
  {
    var f := Colored(c3, t3) + " | " + Colored(c4, t4);
    VisibleLastTwo(c3, t3, c4, t4);
    VisibleField(c2, t2, f);
    assert Colored(c2, t2) + " | " + Colored(c3, t3) + " | " + Colored(c4, t4) == Colored(c2, t2) + " | " + f;
  }

  lemma {:induction false} JoinedHead(a: string, b: string, c: string, d: string)
    ensures a + " | " + b + " | " + c + " | " + d == a + " | " + (b + " | " + c + " | " + d)
  {
  }

  /** Four coloured fields joined by ` | ` show as their texts joined by ` | `. */
  lemma {:induction false} VisibleFields(c1: string, t1: string, c2: string, t2: string, c3: string, t3: string, c4: string, t4: string)
    requires AllDigits(c1) && AllDigits(c2) && AllDigits(c3) && AllDigits(c4)
    requires Esc !in t1 && Esc !in t2 && Esc !in t3 && Esc !in t4
    ensures Visible(Colored(c1, t1) + " | " + Colored(c2, t2) + " | " + Colored(c3, t3) + " | " + Colored(c4, t4))
      == t1 + " | " + t2 + " | " + t3 + " | " + t4
  {
    var n := Colored(c2, t2) + " | " + Colored(c3, t3) + " | " + Colored(c4, t4);
    VisibleLastThree(c2, t2, c3, t3, c4, t4);
    VisibleField(c1, t1, n);
    JoinedHead(Colored(c1, t1), Colored(c2, t2), Colored(c3, t3), Colored(c4, t4));
    JoinedHead(t1, t2, t3, t4);
  }

  /** Colours aside, the main line reads `timestamp | LEVEL | filePath | message`, the level name padded to five characters, provided the fields carry no escape character. */
  lemma {:induction false} MainLineVisible(d: LogData)
    requires Esc !in d.timestamp && Esc !in d.filePath && Esc !in d.message
    ensures Visible(MainLine(d))
      == d.timestamp + " | " + PadEnd(d.level.Name(), 5) + " | " + d.filePath + " | " + d.message
  {
    PaddedNameHasNoEsc(d.level);
    VisibleFields(GrayCode, d.timestamp, LevelColorCode(d.level), PadEnd(d.level.Name(), 5),
                  GreenCode, d.filePath, LevelColorCode(d.level), d.message);
  }

  /** The metadata line is the label `Meta:` in gray, with the metadata itself as second argument. */
  lemma {:induction false} MetaLineVisible()
    ensures Visible(Colored(GrayCode, "Meta:")) == "Meta:"
  {
    VisibleColored(GrayCode, "Meta:", "");
    assert Colored(GrayCode, "Meta:") + "" == Colored(GrayCode, "Meta:");
  }

  /**
   * A record always gives its main line first; a metadata line follows
   * exactly when the metadata is truthy, carrying the metadata itself; a
   * stack line comes last exactly when the stack is a non-empty string, and
   * reads as the stack once its colour is removed.
   */
  lemma {:induction false} RenderShape(d: LogData)
    requires d.stack.Some? ==> Esc !in d.stack.value
    ensures |Render(d)| == 1 + (if MetaTruthy(d.meta) then 1 else 0) + (if TextTruthy(d.stack) then 1 else 0)
    ensures Render(d)[0] == ConsoleCall(MainLine(d), None)
    ensures MetaTruthy(d.meta) ==> Render(d)[1].value == d.meta && Visible(Render(d)[1].text) == "Meta:"
    ensures TextTruthy(d.stack) ==> Visible(Render(d)[|Render(d)| - 1].text) == d.stack.value
    ensures forall i :: 0 <= i < |Render(d)| && Render(d)[i].value.Some? ==> i == 1 && MetaTruthy(d.meta)
  {
    MetaLineVisible();
    if TextTruthy(d.stack) {
      var st := d.stack.value;
      VisibleColored(RedCode, st, "");
      assert Colored(RedCode, st) + "" == Colored(RedCode, st);
    }
  }

  /** The console transport; `output` stands for what it has written to standard output. */
  class ConsoleTransport {
    var output: seq<ConsoleCall>

    constructor()
      ensures output == []
    {
      output := [];
    }

    /** Writes the record's lines after everything written before. */
    method Log(d: LogData)
      modifies this
      ensures output == old(output) + Render(d)
    {
      var color := LevelColorCode(d.level);
      var levelStr := PadEnd(d.level.Name(), 5);
      var timestamp := Colored(GrayCode, d.timestamp);
      var level := Colored(color, levelStr);
      var filePath := Colored(GreenCode, d.filePath);
      var message := Colored(color, d.message);
      var calls := [ConsoleCall(timestamp + " | " + level + " | " + filePath + " | " + message, None)];
      if MetaTruthy(d.meta) {
        calls := calls + [ConsoleCall(Colored(GrayCode, "Meta:"), d.meta)];
      }
      if TextTruthy(d.stack) {
        calls := calls + [ConsoleCall(Colored(RedCode, d.stack.value), None)];
      }
      output := output + calls;
    }
  }
}
