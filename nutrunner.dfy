/**
 * The nutrunner station demo: the six-step operator sequence with its
 * previous/next buttons, the barcode scan and its 1-D bar pattern, the
 * tightening run with its torque/angle chart of the latest 50 points, the
 * pass/fail branch, the password unlock after a rejection, the restart
 * and the swipe gesture.
 *
 * Timers are collapsed: a call the page schedules with `setTimeout`
 * happens at once here, and the 100 ms tightening interval is one `Tick`.
 * Random values are parameters.
 */
module Nutrunner {

  import opened Wrappers

  const TotalSteps: int := 6
  const ChartLimit: nat := 50
  const SwipeThreshold: int := 50
  const DemoPassword: string := "1234"

  // ---------------------------------------------------------------------
  // Bar patterns

  /** The 10-bar pattern of a character of the table; other characters have none. */
  function Pattern(c: char): Option<seq<int>> {
    match c
    case 'A' => Some([1, 0, 1, 1, 0, 0, 0, 0, 1, 0])
    case 'B' => Some([1, 0, 1, 1, 0, 0, 0, 1, 0, 0])
    case 'C' => Some([1, 0, 1, 1, 0, 0, 1, 0, 0, 0])
    case 'D' => Some([1, 0, 1, 1, 0, 0, 1, 1, 0, 0])
    case 'E' => Some([1, 0, 1, 1, 0, 1, 0, 0, 0, 0])
    case 'F' => Some([1, 0, 1, 1, 0, 1, 0, 1, 0, 0])
    case 'G' => Some([1, 0, 1, 1, 0, 1, 1, 0, 0, 0])
    case 'H' => Some([1, 0, 1, 1, 0, 1, 1, 1, 0, 0])
    case 'I' => Some([1, 0, 1, 1, 1, 0, 0, 0, 0, 0])
    case 'J' => Some([1, 0, 1, 1, 1, 0, 0, 1, 0, 0])
    case 'K' => Some([1, 0, 1, 1, 1, 0, 1, 0, 0, 0])
    case 'L' => Some([1, 0, 1, 1, 1, 0, 1, 1, 0, 0])
    case 'M' => Some([1, 0, 1, 1, 1, 1, 0, 0, 0, 0])
    case 'N' => Some([1, 0, 1, 1, 1, 1, 0, 1, 0, 0])
    case 'O' => Some([1, 0, 1, 1, 1, 1, 1, 0, 0, 0])
    case 'P' => Some([1, 0, 1, 1, 1, 1, 1, 1, 0, 0])
    case 'Q' => Some([1, 1, 0, 0, 0, 0, 0, 0, 1, 0])
    case 'R' => Some([1, 1, 0, 0, 0, 0, 0, 1, 0, 0])
    case 'S' => Some([1, 1, 0, 0, 0, 0, 1, 0, 0, 0])
    case 'T' => Some([1, 1, 0, 0, 0, 0, 1, 1, 0, 0])
    case 'U' => Some([1, 1, 0, 0, 0, 1, 0, 0, 0, 0])
    case 'V' => Some([1, 1, 0, 0, 0, 1, 0, 1, 0, 0])
    case 'W' => Some([1, 1, 0, 0, 0, 1, 1, 0, 0, 0])
    case 'X' => Some([1, 1, 0, 0, 0, 1, 1, 1, 0, 0])
    case 'Y' => Some([1, 1, 0, 0, 1, 0, 0, 0, 0, 0])
    case 'Z' => Some([1, 1, 0, 0, 1, 0, 0, 1, 0, 0])
    case '0' => Some([1, 1, 0, 0, 1, 0, 1, 0, 0, 0])
    case '1' => Some([1, 1, 0, 0, 1, 0, 1, 1, 0, 0])
    case '2' => Some([1, 1, 0, 0, 1, 1, 0, 0, 0, 0])
    case '3' => Some([1, 1, 0, 0, 1, 1, 0, 1, 0, 0])
    case '4' => Some([1, 1, 0, 0, 1, 1, 1, 0, 0, 0])
    case '5' => Some([1, 1, 0, 0, 1, 1, 1, 1, 0, 0])
    case '6' => Some([1, 1, 0, 1, 0, 0, 0, 0, 0, 0])
    case '7' => Some([1, 1, 0, 1, 0, 0, 0, 1, 0, 0])
    case '8' => Some([1, 1, 0, 1, 0, 0, 1, 0, 0, 0])
    case '9' => Some([1, 1, 0, 1, 0, 0, 1, 1, 0, 0])
    case _ => None
  }

  predicate InTable(c: char) {
    Pattern(c).Some?
  }

  const StartPattern: seq<int> := [1, 0, 1, 0, 1, 0, 1, 0, 1, 0]
  const StopPattern: seq<int> := [1, 0, 1, 0, 1, 0, 1, 0, 1, 0]

  /**
   * A table whose patterns have ten bars, each 0 or 1 and the first a 1,
   * and read back as their own characters.
   */
  predicate Readable(t: char -> Option<seq<int>>) {
    forall c :: t(c).Some? ==>
      |t(c).value| == 10 && t(c).value[0] == 1 && CharOf(t(c).value) == c &&
      forall i :: 0 <= i < 10 ==> t(c).value[i] == 0 || t(c).value[i] == 1
  }

  /** Every pattern of the table has ten bars, each 0 or 1, the first a 1. */
  lemma TableShape(c: char)
    requires InTable(c)
    ensures |Pattern(c).value| == 10 && Pattern(c).value[0] == 1
    ensures forall i :: 0 <= i < 10 ==> Pattern(c).value[i] == 0 || Pattern(c).value[i] == 1
  {
  }

  /** The table's characters in order: A to Z, then 0 to 9. */
  function AlphabetAt(i: int): char
    requires 0 <= i < 36
  {
    if i < 26 then ('A' as int + i) as char else ('0' as int + i - 26) as char
  }

  /**
   * Reads a pattern back: bars 1 and 3 tell the group (A–P, Q–5, 6–9), bars
   * 4 to 7 the position within it.
   */
  function CharOf(p: seq<int>): char
    requires |p| == 10
  {
    var offset := if p[1] == 0 then 0 else if p[3] == 0 then 16 else 32;
    var index := offset + 8 * p[4] + 4 * p[5] + 2 * p[6] + p[7];
    if 0 <= index < 36 then AlphabetAt(index) else '?'
  }

  /** Each pattern of the table reads back as its character. */
  lemma CharOfPattern(c: char)
    requires InTable(c)
    ensures |Pattern(c).value| == 10 && CharOf(Pattern(c).value) == c
  {
    TableShape(c);
    if c == 'A' {
      assert CharOf(Pattern('A').value) == 'A';
    } else if c == 'B' {
      assert CharOf(Pattern('B').value) == 'B';
    } else if c == 'C' {
      assert CharOf(Pattern('C').value) == 'C';
    } else if c == 'D' {
      assert CharOf(Pattern('D').value) == 'D';
    } else if c == 'E' {
      assert CharOf(Pattern('E').value) == 'E';
    } else if c == 'F' {
      assert CharOf(Pattern('F').value) == 'F';
    } else if c == 'G' {
      assert CharOf(Pattern('G').value) == 'G';
    } else if c == 'H' {
      assert CharOf(Pattern('H').value) == 'H';
    } else if c == 'I' {
      assert CharOf(Pattern('I').value) == 'I';
    } else if c == 'J' {
      assert CharOf(Pattern('J').value) == 'J';
    } else if c == 'K' {
      assert CharOf(Pattern('K').value) == 'K';
    } else if c == 'L' {
      assert CharOf(Pattern('L').value) == 'L';
    } else if c == 'M' {
      assert CharOf(Pattern('M').value) == 'M';
    } else if c == 'N' {
      assert CharOf(Pattern('N').value) == 'N';
    } else if c == 'O' {
      assert CharOf(Pattern('O').value) == 'O';
    } else if c == 'P' {
      assert CharOf(Pattern('P').value) == 'P';
    } else if c == 'Q' {
      assert CharOf(Pattern('Q').value) == 'Q';
    } else if c == 'R' {
      assert CharOf(Pattern('R').value) == 'R';
    } else if c == 'S' {
      assert CharOf(Pattern('S').value) == 'S';
    } else if c == 'T' {
      assert CharOf(Pattern('T').value) == 'T';
    } else if c == 'U' {
      assert CharOf(Pattern('U').value) == 'U';
    } else if c == 'V' {
      assert CharOf(Pattern('V').value) == 'V';
    } else if c == 'W' {
      assert CharOf(Pattern('W').value) == 'W';
    } else if c == 'X' {
      assert CharOf(Pattern('X').value) == 'X';
    } else if c == 'Y' {
      assert CharOf(Pattern('Y').value) == 'Y';
    } else if c == 'Z' {
      assert CharOf(Pattern('Z').value) == 'Z';
    } else if c == '0' {
      assert CharOf(Pattern('0').value) == '0';
    } else if c == '1' {
      assert CharOf(Pattern('1').value) == '1';
    } else if c == '2' {
      assert CharOf(Pattern('2').value) == '2';
    } else if c == '3' {
      assert CharOf(Pattern('3').value) == '3';
    } else if c == '4' {
      assert CharOf(Pattern('4').value) == '4';
    } else if c == '5' {
      assert CharOf(Pattern('5').value) == '5';
    } else if c == '6' {
      assert CharOf(Pattern('6').value) == '6';
    } else if c == '7' {
      assert CharOf(Pattern('7').value) == '7';
    } else if c == '8' {
      assert CharOf(Pattern('8').value) == '8';
    } else if c == '9' {
      assert CharOf(Pattern('9').value) == '9';
    }
  }

  lemma PatternsReadable()
    ensures Readable(Pattern)
  {
    forall c | Pattern(c).Some?
      ensures |Pattern(c).value| == 10 && Pattern(c).value[0] == 1 && CharOf(Pattern(c).value) == c &&
        forall i :: 0 <= i < 10 ==> Pattern(c).value[i] == 0 || Pattern(c).value[i] == 1
    {
      TableShape(c);
      CharOfPattern(c);
    }
  }

  /** The characters of the text the table knows, in order. */
  function Known(t: char -> Option<seq<int>>, text: string): (k: string)
    ensures |k| <= |text|
    ensures forall c :: c in k ==> t(c).Some?
    decreases |text|
  {
    if text == [] then []
    else
      var n := |text| - 1;
      Known(t, text[..n]) + (if t(text[n]).Some? then [text[n]] else [])
  }

  /** The bars of the known characters of the text, one pattern after another. */
  function Bars(t: char -> Option<seq<int>>, text: string): seq<int>
    decreases |text|
  {
    if text == [] then []
    else
      var n := |text| - 1;
      Bars(t, text[..n]) + (if t(text[n]).Some? then t(text[n]).value else [])
  }

  /** One more character of the text adds its pattern, if it has one, after the bars so far. */
  lemma BarsStep(t: char -> Option<seq<int>>, text: string, i: nat)
    requires i < |text|
    ensures Bars(t, text[..i + 1]) == Bars(t, text[..i]) + (if t(text[i]).Some? then t(text[i]).value else [])
  {
    assert text[..i + 1][..i] == text[..i] && text[..i + 1][i] == text[i];
  }

  function Encode(t: char -> Option<seq<int>>, text: string): seq<int> {
    StartPattern + Bars(t, text) + StopPattern
  }

  /**
   * `generateBarcode`: the start pattern, each known character's pattern,
   * the stop pattern.  The table the function holds, an object read as
   * `patterns[char]`, is the lookup `patterns` (`Pattern` at every use).
   */
  method GenerateBarcode(patterns: char -> Option<seq<int>>, text: string) returns (fullPattern: seq<int>)
    ensures fullPattern == Encode(patterns, text)
  {
    fullPattern := StartPattern;
    for i := 0 to |text|
      invariant fullPattern == StartPattern + Bars(patterns, text[..i])
    {
      BarsStep(patterns, text, i);
      if patterns(text[i]).Some? {
        fullPattern := fullPattern + patterns(text[i]).value;
      }
    }
    assert text[..|text|] == text;
    fullPattern := fullPattern + StopPattern;
  }

  lemma {:induction false} BarsShape(t: char -> Option<seq<int>>, text: string)
    requires Readable(t)
    ensures |Bars(t, text)| == 10 * |Known(t, text)|
    ensures forall i :: 0 <= i < |Bars(t, text)| ==> Bars(t, text)[i] == 0 || Bars(t, text)[i] == 1
    decreases |text|
  {
    if text != [] {
      var n := |text| - 1;
      BarsShape(t, text[..n]);
    }
  }

  /**
   * The pattern has 20 + 10 bars per known character, all 0 or 1, and
   * starts and ends with the start and stop patterns; unknown characters
   * add nothing.
   */
  lemma EncodeShape(t: char -> Option<seq<int>>, text: string, c: char)
    requires Readable(t)
    ensures |Encode(t, text)| == 20 + 10 * |Known(t, text)|
    ensures forall i :: 0 <= i < |Encode(t, text)| ==> Encode(t, text)[i] == 0 || Encode(t, text)[i] == 1
    ensures Encode(t, text)[..10] == StartPattern
    ensures Encode(t, text)[|Encode(t, text)| - 10..] == StopPattern
    ensures t(c).None? ==> Encode(t, text + [c]) == Encode(t, text)
  {
    BarsShape(t, text);
    EncodeBits(t, text);
    var e := Encode(t, text);
    assert e[..10] == StartPattern;
    assert e[|e| - 10..] == StopPattern;
    assert (text + [c])[..|text|] == text;
  }

  lemma EncodeBits(t: char -> Option<seq<int>>, text: string)
    requires Readable(t)
    ensures forall i :: 0 <= i < |Encode(t, text)| ==> Encode(t, text)[i] == 0 || Encode(t, text)[i] == 1
  {
    BarsShape(t, text);
    var b := Bars(t, text);
    var e := Encode(t, text);
    forall i | 0 <= i < |e| ensures e[i] == 0 || e[i] == 1 {
      if i < 10 {
        assert e[i] == StartPattern[i];
      } else if i < 10 + |b| {
        assert e[i] == b[i - 10];
      } else {
        assert e[i] == StopPattern[i - 10 - |b|];
      }
    }
  }

  function DecodeChunks(b: seq<int>): seq<char>
    decreases |b|
  {
    if |b| < 10 then [] else [CharOf(b[..10])] + DecodeChunks(b[10..])
  }

  /** Reads the characters back from a bar pattern, between its start and stop patterns. */
  function Decode(bars: seq<int>): seq<char> {
    if |bars| < 20 then [] else DecodeChunks(bars[10..|bars| - 10])
  }

  lemma {:induction false} DecodeChunksAppend(a: seq<int>, b: seq<int>)
    requires |a| % 10 == 0
    ensures DecodeChunks(a + b) == DecodeChunks(a) + DecodeChunks(b)
    decreases |a|
  {
    if |a| >= 10 {
      assert (a + b)[..10] == a[..10];
      assert (a + b)[10..] == a[10..] + b;
      DecodeChunksAppend(a[10..], b);
    } else {
      assert a == [];
      assert a + b == b;
    }
  }

  lemma {:induction false} DecodeBars(t: char -> Option<seq<int>>, text: string)
    requires Readable(t)
    ensures DecodeChunks(Bars(t, text)) == Known(t, text)
    decreases |text|
  {
    if text != [] {
      var n := |text| - 1;
      DecodeBars(t, text[..n]);
      BarsShape(t, text[..n]);
      DecodeBarsStep(t, text, text[n]);
    }
  }

  /** The last character of the text, read back from its pattern after the bars before it. */
  lemma DecodeBarsStep(t: char -> Option<seq<int>>, text: string, c: char)
    requires text != [] && c == text[|text| - 1]
    requires |Bars(t, text[..|text| - 1])| % 10 == 0
    requires DecodeChunks(Bars(t, text[..|text| - 1])) == Known(t, text[..|text| - 1])
    requires t(c).Some? ==> |t(c).value| == 10 && CharOf(t(c).value) == c
    ensures DecodeChunks(Bars(t, text)) == Known(t, text)
  {
    var front := text[..|text| - 1];
    if t(c).Some? {
      assert Bars(t, text) == Bars(t, front) + t(c).value;
      assert Known(t, text) == Known(t, front) + [c];
      DecodeChunksAppend(Bars(t, front), t(c).value);
      DecodeOneChunk(t(c).value);
    } else {
      assert Bars(t, text) == Bars(t, front) + [] == Bars(t, front);
      assert Known(t, text) == Known(t, front) + [] == Known(t, front);
    }
  }

  lemma DecodeOneChunk(p: seq<int>)
    requires |p| == 10
    ensures DecodeChunks(p) == [CharOf(p)]
  {
    assert p[..10] == p && p[10..] == [];
  }

  /** The pattern reads back as the known characters of the text: nothing else is encoded, nothing lost. */
  lemma DecodeEncode(t: char -> Option<seq<int>>, text: string)
    requires Readable(t)
    ensures Decode(Encode(t, text)) == Known(t, text)
  {
    BarsShape(t, text);
    var e := Encode(t, text);
    assert e[10..|e| - 10] == Bars(t, text);
    DecodeBars(t, text);
  }

  // ---------------------------------------------------------------------
  // Navigation

  /** The step shown and the state of the two buttons. */
  datatype Nav = Nav(step: int, prevDisabled: bool, nextDisabled: bool)

  /** `updateNavigationButtons`. */
  function Buttons(n: Nav): (r: Nav)
    ensures r.step == n.step && (r.prevDisabled <==> r.step == 1) && (r.nextDisabled <==> r.step == TotalSteps)
  {
    n.(prevDisabled := n.step == 1, nextDisabled := n.step == TotalSteps)
  }

  predicate InRange(n: Nav) {
    1 <= n.step <= TotalSteps
  }

  /** The buttons agree with the step. */
  predicate Agrees(n: Nav) {
    (n.prevDisabled <==> n.step == 1) && (n.nextDisabled <==> n.step == TotalSteps)
  }

  datatype CycleData = CycleData(barcode: string, finalTorque: real, finalAngle: int, result: string, cycleTime: real, startTime: int)

  /** The chart's labels and its two datasets. */
  datatype Chart = Chart(labels: seq<int>, torques: seq<real>, angles: seq<real>)

  const EmptyChart: Chart := Chart([], [], [])

  /** All the page state the modelled handlers change. */
  datatype Panel = Panel(nav: Nav, cycle: CycleData, isPass: bool, chart: Chart, torque: real, angle: real)

  /**
   * `showStep`: besides the display, showing step 4 clears the chart and,
   * through the tightening start that `resetStep4` schedules, zeroes the
   * torque and the angle.
   */
  function ShowStepSpec(p: Panel): Panel {
    if p.nav.step == 4 then p.(chart := EmptyChart, torque := 0.0, angle := 0.0) else p
  }

  /** Go to step k: show it, then update the buttons. */
  function GoTo(p: Panel, k: int): (r: Panel)
    ensures r.nav == Buttons(p.nav.(step := k))
  {
    ShowStepSpec(p.(nav := Buttons(p.nav.(step := k))))
  }

  /** `nextStep`. */
  function NextSpec(p: Panel): Panel {
    if p.nav.step < TotalSteps then GoTo(p, p.nav.step + 1) else p
  }

  /** `previousStep`. */
  function PrevSpec(p: Panel): Panel {
    if p.nav.step > 1 then GoTo(p, p.nav.step - 1) else p
  }

  /** `handleSwipe`: a swipe of more than 50 to the left goes on, to the right goes back, if the button allows. */
  function SwipeSpec(p: Panel, startX: int, endX: int): Panel {
    var diff := startX - endX;
    if -SwipeThreshold <= diff <= SwipeThreshold then p
    else if diff > 0 && !p.nav.nextDisabled then NextSpec(p)
    else if diff < 0 && !p.nav.prevDisabled then PrevSpec(p)
    else p
  }

  /**
   * `nextStep` and `previousStep` keep the step in 1..6 and move it by one,
   * do nothing at the bounds, and leave the buttons agreeing with the step
   * whenever they move it.
   */
  lemma NavigationSteps(p: Panel)
    requires InRange(p.nav)
    ensures InRange(NextSpec(p).nav) && InRange(PrevSpec(p).nav)
    ensures p.nav.step == TotalSteps ==> NextSpec(p) == p
    ensures p.nav.step == 1 ==> PrevSpec(p) == p
    ensures p.nav.step < TotalSteps ==> NextSpec(p).nav.step == p.nav.step + 1 && Agrees(NextSpec(p).nav)
    ensures p.nav.step > 1 ==> PrevSpec(p).nav.step == p.nav.step - 1 && Agrees(PrevSpec(p).nav)
    ensures Agrees(p.nav) ==> Agrees(NextSpec(p).nav) && Agrees(PrevSpec(p).nav)
  {
  }

  /**
   * A swipe of at most 50 does nothing; a longer one to the left acts as
   * `nextStep` unless next is disabled, one to the right as `previousStep`
   * unless previous is disabled.  With buttons that agree with the step,
   * a swipe never leaves 1..6.
   */
  lemma SwipeDecisions(p: Panel, startX: int, endX: int)
    ensures var diff := startX - endX;
      (-50 <= diff <= 50 ==> SwipeSpec(p, startX, endX) == p) &&
      (diff > 50 && !p.nav.nextDisabled ==> SwipeSpec(p, startX, endX) == NextSpec(p)) &&
      (diff > 50 && p.nav.nextDisabled ==> SwipeSpec(p, startX, endX) == p) &&
      (diff < -50 && !p.nav.prevDisabled ==> SwipeSpec(p, startX, endX) == PrevSpec(p)) &&
      (diff < -50 && p.nav.prevDisabled ==> SwipeSpec(p, startX, endX) == p)
    ensures InRange(p.nav) ==> InRange(SwipeSpec(p, startX, endX).nav)
  {
  }

  // ---------------------------------------------------------------------
  // Chart

  /** Drops the oldest point once there are more than 50. */
  function Shift<T>(s: seq<T>): (r: seq<T>)
    ensures |s| <= ChartLimit + 1 ==> |r| <= ChartLimit
  {
    if |s| > ChartLimit then s[1..] else s
  }

  /** `updateChart`: the new label is the current number of labels, which stays 50 once the window is full. */
  function AddPointAsWritten(c: Chart, torque: real, angle: real): Chart {
    var timePoint := |c.labels|;
    Chart(Shift(c.labels + [timePoint]), Shift(c.torques + [torque]), Shift(c.angles + [angle]))
  }

  /**
   * The chart of the page: the three lists of one length, at most 50
   * points, labels never decreasing and none above the number shown, and
   * until the window fills, the labels 0, 1, 2, ... in order.
   */
  predicate ChartWindow(c: Chart) {
    |c.labels| == |c.torques| == |c.angles| <= ChartLimit &&
    (forall i :: 0 <= i < |c.labels| ==> i <= c.labels[i] <= |c.labels|) &&
    (forall i, j :: 0 <= i < j < |c.labels| ==> c.labels[i] <= c.labels[j]) &&
    (|c.labels| < ChartLimit ==> forall i :: 0 <= i < |c.labels| ==> c.labels[i] == i)
  }

  /**
   * A point as the page adds it keeps the window: at most 50 points, the
   * three lists of one length, the new values last with the label the
   * number of points shown before, the older points kept or moved up by
   * one, and no label above 50.
   */
  lemma UpdateChartAsWritten(c: Chart, torque: real, angle: real)
    requires ChartWindow(c)
    ensures var d := AddPointAsWritten(c, torque, angle);
      ChartWindow(d) && |d.labels| == (if |c.labels| < ChartLimit then |c.labels| + 1 else ChartLimit) &&
      d.torques[|d.torques| - 1] == torque && d.angles[|d.angles| - 1] == angle &&
      d.labels[|d.labels| - 1] == |c.labels| &&
      (|c.labels| < ChartLimit ==> d.torques[..|c.torques|] == c.torques && d.angles[..|c.angles|] == c.angles) &&
      (|c.labels| == ChartLimit ==> d.torques[..|c.torques| - 1] == c.torques[1..] && d.angles[..|c.angles| - 1] == c.angles[1..]) &&
      (forall i :: 0 <= i < |d.labels| ==> d.labels[i] <= ChartLimit)
  {
    ShiftAppend(c.labels, |c.labels|);
    ShiftAppend(c.torques, torque);
    ShiftAppend(c.angles, angle);
    LabelsAsWrittenWindow(c);
  }

  /** Appending one element and shifting: kept when there is room, the oldest dropped when full. */
  lemma ShiftAppend<T>(s: seq<T>, x: T)
    requires |s| <= ChartLimit
    ensures |s| < ChartLimit ==> Shift(s + [x]) == s + [x]
    ensures |s| == ChartLimit ==> Shift(s + [x]) == s[1..] + [x]
  {
    if |s| == ChartLimit {
      assert (s + [x])[1..] == s[1..] + [x];
    }
  }

  /** The labels after a point as written still lie in the window: bounded, never decreasing, 0, 1, 2, ... until full. */
  lemma LabelsAsWrittenWindow(c: Chart)
    requires ChartWindow(c)
    ensures var l := Shift(c.labels + [|c.labels|]);
      (forall i :: 0 <= i < |l| ==> i <= l[i] <= |l|) &&
      (forall i, j :: 0 <= i < j < |l| ==> l[i] <= l[j]) &&
      (|l| < ChartLimit ==> forall i :: 0 <= i < |l| ==> l[i] == i)
  {
    ShiftAppend(c.labels, |c.labels|);
    var l := Shift(c.labels + [|c.labels|]);
    if |c.labels| == ChartLimit {
      forall i | 0 <= i < |l| ensures i <= l[i] <= |l| {
        if i < |l| - 1 {
          assert l[i] == c.labels[i + 1];
        }
      }
    } else {
      assert l == c.labels + [|c.labels|];
    }
  }

  /** Once the window is full, two more points as the page adds them get the same label, 50. */
  lemma ChartAsWrittenRepeatsLabel(c: Chart, t1: real, a1: real, t2: real, a2: real)
    requires |c.labels| == ChartLimit
    ensures var c2 := AddPointAsWritten(AddPointAsWritten(c, t1, a1), t2, a2);
      |c2.labels| == ChartLimit && c2.labels[ChartLimit - 2] == 50 && c2.labels[ChartLimit - 1] == 50
  {
  }

  /** Corrected: the new label is n, the number of points added since the chart was cleared. */
  function AddPointNumbered(c: Chart, n: nat, torque: real, angle: real): Chart {
    Chart(Shift(c.labels + [n]), Shift(c.torques + [torque]), Shift(c.angles + [angle]))
  }

  /** After n points the chart holds the latest min(n, 50), labelled with their consecutive numbers. */
  predicate ChartNumbered(c: Chart, n: nat) {
    |c.labels| == |c.torques| == |c.angles| &&
    |c.labels| == (if n < ChartLimit then n else ChartLimit) &&
    forall i :: 0 <= i < |c.labels| ==> c.labels[i] == n - |c.labels| + i
  }

  /**
   * With the corrected label a point keeps the chart numbered: at most 50
   * points, the three lists of one length, the new values last, the
   * previous points moved up by one or kept, and labels strictly increasing.
   */
  lemma UpdateChartWindow(c: Chart, n: nat, torque: real, angle: real)
    requires ChartNumbered(c, n)
    ensures var d := AddPointNumbered(c, n, torque, angle);
      ChartNumbered(d, n + 1) && |d.labels| <= ChartLimit &&
      d.torques[|d.torques| - 1] == torque && d.angles[|d.angles| - 1] == angle &&
      d.labels[|d.labels| - 1] == n &&
      (|c.labels| < ChartLimit ==> d.torques[..|c.torques|] == c.torques) &&
      (|c.labels| == ChartLimit ==> d.torques[..|c.torques| - 1] == c.torques[1..]) &&
      (forall i, j :: 0 <= i < j < |d.labels| ==> d.labels[i] < d.labels[j])
  {
    ShiftAppend(c.labels, n);
    ShiftAppend(c.torques, torque);
    ShiftAppend(c.angles, angle);
    var d := AddPointNumbered(c, n, torque, angle);
    forall i | 0 <= i < |d.labels| ensures d.labels[i] == n + 1 - |d.labels| + i {
      if |c.labels| == ChartLimit && i < |d.labels| - 1 {
        assert d.labels[i] == c.labels[i + 1];
      }
    }
  }

  // ---------------------------------------------------------------------
  // Tightening

  /** The stop test of the tightening interval. */
  predicate TighteningDone(torque: real, angle: real) {
    torque >= 25.0 && angle >= 90.0
  }

  /** `Math.round`: halves go up. */
  function RoundJs(x: real): (n: int)
    ensures (n as real) - 1.0 / 2.0 <= x < (n as real) + 1.0 / 2.0
  {
    (x + 0.5).Floor
  }

  /** One interval tick with the given increments; when done, the final values are recorded. */
  function TickSpec(p: Panel, dTorque: real, dAngle: real): (bool, Panel) {
    var t := p.torque + dTorque;
    var a := p.angle + dAngle;
    var q := p.(torque := t, angle := a, chart := AddPointAsWritten(p.chart, t, a));
    if TighteningDone(t, a) then (true, q.(cycle := q.cycle.(finalTorque := t, finalAngle := RoundJs(a))))
    else (false, q)
  }

  /** Ticks until done or until the increments run out; the number of ticks taken. */
  function TightenSpec(p: Panel, incs: seq<(real, real)>): (r: (nat, bool, Panel))
    ensures r.0 <= |incs|
    decreases |incs|
  {
    if incs == [] then (0, false, p)
    else
      var (done, q) := TickSpec(p, incs[0].0, incs[0].1);
      if done then (1, true, q)
      else
        var (k, d, q') := TightenSpec(q, incs[1..]);
        (k + 1, d, q')
  }

  /** The outcome of the remaining ticks after k ticks already taken. */
  function After(k: nat, r: (nat, bool, Panel)): (nat, bool, Panel) {
    (k + r.0, r.1, r.2)
  }

  lemma AfterAfter(k: nat, r: (nat, bool, Panel))
    ensures After(k, After(1, r)) == After(k + 1, r)
  {
  }

  /** The first tick of the interval, and the rest after it unless it was the last. */
  lemma TightenUnfold(p: Panel, incs: seq<(real, real)>)
    requires incs != []
    ensures var (done, q) := TickSpec(p, incs[0].0, incs[0].1);
      TightenSpec(p, incs) == (if done then (1, true, q) else After(1, TightenSpec(q, incs[1..])))
  {
  }

  /** The running torque and angle after each of the first n increments, from 0. */
  function TorqueAfter(incs: seq<(real, real)>, n: nat): real
    requires n <= |incs|
  {
    if n == 0 then 0.0 else TorqueAfter(incs, n - 1) + incs[n - 1].0
  }

  function AngleAfter(incs: seq<(real, real)>, n: nat): real
    requires n <= |incs|
  {
    if n == 0 then 0.0 else AngleAfter(incs, n - 1) + incs[n - 1].1
  }

  /** Increments as the page draws them: torque from 0.5 up to 2.5, angle from 1 up to 4. */
  predicate PageIncrements(incs: seq<(real, real)>) {
    forall i :: 0 <= i < |incs| ==> 0.5 <= incs[i].0 < 2.5 && 1.0 <= incs[i].1 < 4.0
  }

  lemma {:induction false} RunningTotals(incs: seq<(real, real)>, n: nat)
    requires n <= |incs| && PageIncrements(incs)
    ensures TorqueAfter(incs, n) >= 0.5 * (n as real) && AngleAfter(incs, n) >= n as real
  {
    if n > 0 {
      RunningTotals(incs, n - 1);
    }
  }

  lemma {:induction false} TightenFrom(p: Panel, incs: seq<(real, real)>, all: seq<(real, real)>, n: nat)
    requires n <= |all| && incs == all[n..] && p.torque == TorqueAfter(all, n) && p.angle == AngleAfter(all, n)
    requires PageIncrements(all) && |all| >= 90 && n < 90
    ensures TightenSpec(p, incs).1 && n + TightenSpec(p, incs).0 <= 90
    decreases |incs|
  {
    assert incs[0] == all[n];
    RunningTotals(all, n + 1);
    var (done, q) := TickSpec(p, incs[0].0, incs[0].1);
    if !done {
      assert incs[1..] == all[n + 1..];
      TightenFrom(q, incs[1..], all, n + 1);
    }
  }

  /**
   * Starting from zero with the page's increments, the tightening stops
   * within 90 ticks: the angle passes 90 by then, the torque passes 25
   * within 50.
   */
  lemma TighteningStopsWithin90(p: Panel, incs: seq<(real, real)>)
    requires p.torque == 0.0 && p.angle == 0.0
    requires PageIncrements(incs) && |incs| >= 90
    ensures TightenSpec(p, incs).1 && TightenSpec(p, incs).0 <= 90
  {
    assert incs[0..] == incs;
    TightenFrom(p, incs, incs, 0);
  }

  // ---------------------------------------------------------------------
  // The operator actions

  /** The decimal digit d as a character. */
  function Digit(d: int): (c: char)
    requires 0 <= d < 10
    ensures '0' <= c <= '9' && DigitValue(c) == d
  {
    ('0' as int + d) as char
  }

  /** Every decimal digit has a pattern in the table. */
  lemma DigitsInTable()
    ensures forall d :: 0 <= d < 10 ==> InTable(Digit(d))
  {
    forall d | 0 <= d < 10 ensures InTable(Digit(d)) {
      if d == 0 { assert Digit(d) == '0'; }
      else if d == 1 { assert Digit(d) == '1'; }
      else if d == 2 { assert Digit(d) == '2'; }
      else if d == 3 { assert Digit(d) == '3'; }
      else if d == 4 { assert Digit(d) == '4'; }
      else if d == 5 { assert Digit(d) == '5'; }
      else if d == 6 { assert Digit(d) == '6'; }
      else if d == 7 { assert Digit(d) == '7'; }
      else if d == 8 { assert Digit(d) == '8'; }
      else { assert Digit(d) == '9'; }
    }
  }

  /** The value of a decimal digit character. */
  function DigitValue(c: char): int {
    c as int - '0' as int
  }

  /** `'ABC' + r.toString().padStart(4, '0')` for the random `r` below 10000. */
  function ScannedBarcode(r: nat): (b: string)
    requires r < 10000
    ensures |b| == 7 && b[..3] == "ABC"
    ensures forall i :: 0 <= i < 7 ==> InTable(b[i])
    ensures forall i :: 3 <= i < 7 ==> '0' <= b[i] <= '9'
    ensures DigitValue(b[3]) * 1000 + DigitValue(b[4]) * 100 + DigitValue(b[5]) * 10 + DigitValue(b[6]) == r
  {
    DecimalDigits(r);
    DigitsInTable();
    assert InTable('A') && InTable('B') && InTable('C');
    var ds := [Digit(r / 1000), Digit(r / 100 % 10), Digit(r / 10 % 10), Digit(r % 10)];
    assert DigitValue(ds[0]) * 1000 + DigitValue(ds[1]) * 100 + DigitValue(ds[2]) * 10 + DigitValue(ds[3]) == r;
    "ABC" + ds
  }

  /** A number below 10000 is its four decimal digits. */
  lemma DecimalDigits(r: nat)
    requires r < 10000
    ensures r / 1000 * 1000 + r / 100 % 10 * 100 + r / 10 % 10 * 10 + r % 10 == r
    ensures r / 1000 < 10
  {
    assert r / 100 == r / 1000 * 10 + r / 100 % 10;
    assert r / 10 == r / 100 * 10 + r / 10 % 10;
    assert r == r / 10 * 10 + r % 10;
  }

  function ScanSpec(p: Panel, r: nat): Panel
    requires r < 10000
  {
    NextSpec(p.(cycle := p.cycle.(barcode := ScannedBarcode(r))))
  }

  /** A scanned barcode is all table characters: its pattern has 90 bars and reads back as the barcode. */
  lemma ScannedBarcodePattern(r: nat)
    requires r < 10000
    ensures |Encode(Pattern, ScannedBarcode(r))| == 90
    ensures Decode(Encode(Pattern, ScannedBarcode(r))) == ScannedBarcode(r)
  {
    var b := ScannedBarcode(r);
    PatternsReadable();
    AllKnown(Pattern, b);
    EncodeShape(Pattern, b, 'A');
    DecodeEncode(Pattern, b);
  }

  lemma {:induction false} AllKnown(t: char -> Option<seq<int>>, text: string)
    requires forall i :: 0 <= i < |text| ==> t(text[i]).Some?
    ensures Known(t, text) == text
    decreases |text|
  {
    if text != [] {
      var n := |text| - 1;
      AllKnown(t, text[..n]);
      assert text[..n] + [text[n]] == text;
    }
  }

  /** `simulatePass`: PASS, then the next step. */
  function PassSpec(p: Panel): Panel {
    NextSpec(p.(isPass := true, cycle := p.cycle.(result := "PASS")))
  }

  /** `simulateFail`: FAIL, then step 6 directly. */
  function FailSpec(p: Panel): Panel {
    GoTo(p.(isPass := false, cycle := p.cycle.(result := "FAIL")), TotalSteps)
  }

  /** `restartCycle`: empty cycle data from now, step 1, and the next pass/fail choice. */
  function RestartSpec(p: Panel, now: int, nextIsPass: bool): Panel {
    GoTo(p.(cycle := CycleData("", 0.0, 0, "", 0.0, now)), 1).(isPass := nextIsPass)
  }

  /** `submitPassword`: the demo password unlocks the tool and the cycle starts over at step 1. */
  function PasswordSpec(p: Panel, password: string): Panel {
    if password == DemoPassword then GoTo(p, 1) else p
  }

  /**
   * Pass records PASS and advances one step; fail records FAIL and jumps to
   * step 6; restart clears the cycle data to empty and zero and returns to
   * step 1; only the demo password returns to step 1, any other leaves the
   * page as it was.  All keep the step in 1..6 with the buttons agreeing.
   */
  lemma OutcomeActions(p: Panel, now: int, nextIsPass: bool, password: string)
    requires InRange(p.nav)
    ensures PassSpec(p).cycle.result == "PASS" && PassSpec(p).isPass &&
            PassSpec(p).nav.step == (if p.nav.step < 6 then p.nav.step + 1 else 6)
    ensures FailSpec(p).cycle.result == "FAIL" && !FailSpec(p).isPass && FailSpec(p).nav.step == 6 && Agrees(FailSpec(p).nav)
    ensures var r := RestartSpec(p, now, nextIsPass);
      r.cycle == CycleData("", 0.0, 0, "", 0.0, now) && r.nav.step == 1 && Agrees(r.nav) && r.isPass == nextIsPass
    ensures (password == "1234" ==> PasswordSpec(p, password).nav.step == 1 && Agrees(PasswordSpec(p, password).nav))
    ensures (password != "1234" ==> PasswordSpec(p, password) == p)
  {
  }

  /** What the operator (or the page's own timers) can do next. */
  datatype Action =
    | GoNext
    | GoBack
    | SwipeGesture(startX: int, endX: int)
    | Scan(draw: nat)
    | TighteningStart
    | TighteningTick(dTorque: real, dAngle: real)
    | ChoosePass
    | ChooseFail
    | Restart(now: int, nextIsPass: bool)
    | EnterPassword(password: string)

  predicate Allowed(a: Action) {
    a.Scan? ==> a.draw < 10000
  }

  function Apply(p: Panel, a: Action): Panel
    requires Allowed(a)
  {
    match a
    case GoNext => NextSpec(p)
    case GoBack => PrevSpec(p)
    case SwipeGesture(x0, x1) => SwipeSpec(p, x0, x1)
    case Scan(r) => ScanSpec(p, r)
    case TighteningStart => p.(torque := 0.0, angle := 0.0)
    case TighteningTick(dt, da) => TickSpec(p, dt, da).1
    case ChoosePass => PassSpec(p)
    case ChooseFail => FailSpec(p)
    case Restart(now, b) => RestartSpec(p, now, b)
    case EnterPassword(pw) => PasswordSpec(p, pw)
  }

  function ApplyAll(p: Panel, acts: seq<Action>): Panel
    requires forall i :: 0 <= i < |acts| ==> Allowed(acts[i])
    decreases |acts|
  {
    if acts == [] then p else ApplyAll(Apply(p, acts[0]), acts[1..])
  }

  /** The step in 1..6, the buttons agreeing with it, and the chart within its window. */
  predicate PanelInvariant(p: Panel) {
    InRange(p.nav) && Agrees(p.nav) && ChartWindow(p.chart)
  }

  lemma ApplyKeepsInvariant(p: Panel, a: Action)
    requires PanelInvariant(p) && Allowed(a)
    ensures PanelInvariant(Apply(p, a))
  {
    if a.TighteningTick? {
      TickKeepsInvariant(p, a.dTorque, a.dAngle);
    } else {
      ButtonsKeepInvariant(p, a);
    }
  }

  /** A tool tick moves the chart window along with the new point. */
  lemma TickKeepsInvariant(p: Panel, dTorque: real, dAngle: real)
    requires PanelInvariant(p)
    ensures PanelInvariant(TickSpec(p, dTorque, dAngle).1)
  {
    UpdateChartAsWritten(p.chart, p.torque + dTorque, p.angle + dAngle);
  }

  /** Every action other than a tool tick goes through the step navigation, which keeps the step in range. */
  lemma ButtonsKeepInvariant(p: Panel, a: Action)
    requires PanelInvariant(p) && Allowed(a) && !a.TighteningTick?
    ensures PanelInvariant(Apply(p, a))
  {
  }

  /** Whatever the operator does, in any order, the step stays in 1..6 with the buttons agreeing. */
  lemma {:induction false} InvariantAlways(p: Panel, acts: seq<Action>)
    requires PanelInvariant(p)
    requires forall i :: 0 <= i < |acts| ==> Allowed(acts[i])
    ensures PanelInvariant(ApplyAll(p, acts))
    decreases |acts|
  {
    if acts != [] {
      ApplyKeepsInvariant(p, acts[0]);
      InvariantAlways(Apply(p, acts[0]), acts[1..]);
    }
  }

  /** The page: its step and buttons, the cycle data, the pass/fail choice, the chart and the tool. */
  class Station {
    var step: int
    var prevDisabled: bool
    var nextDisabled: bool
    var cycleData: CycleData
    var isPassSequence: bool
    var chart: Chart
    var currentTorque: real
    var currentAngle: real

    function State(): Panel
      reads this
    {
      Panel(Nav(step, prevDisabled, nextDisabled), cycleData, isPassSequence, chart, currentTorque, currentAngle)
    }

    predicate Valid()
      reads this
    {
      InRange(State().nav) && ChartWindow(chart)
    }

    /** The page at load: step 1, buttons as the markup sets them, demo in pass mode. */
    constructor(prevAtLoad: bool, nextAtLoad: bool)
      ensures Valid()
      ensures State() == Panel(Nav(1, prevAtLoad, nextAtLoad), CycleData("", 0.0, 0, "", 0.0, 0), true, EmptyChart, 0.0, 0.0)
    {
      step := 1;
      prevDisabled := prevAtLoad;
      nextDisabled := nextAtLoad;
      cycleData := CycleData("", 0.0, 0, "", 0.0, 0);
      isPassSequence := true;
      chart := EmptyChart;
      currentTorque := 0.0;
      currentAngle := 0.0;
    }

    method ShowStep()
      modifies this
      ensures State() == ShowStepSpec(old(State()))
    {
      if step == 4 {
        chart := EmptyChart;
        StartTightening();
      }
    }

    method UpdateNavigationButtons()
      modifies this
      ensures State() == old(State()).(nav := Buttons(old(State()).nav))
    {
      prevDisabled := step == 1;
      nextDisabled := step == TotalSteps;
    }

    method PreviousStep()
      requires Valid()
      modifies this
      ensures Valid() && State() == PrevSpec(old(State()))
    {
      if step > 1 {
        step := step - 1;
        ShowStep();
        UpdateNavigationButtons();
      }
    }

    method NextStep()
      requires Valid()
      modifies this
      ensures Valid() && State() == NextSpec(old(State()))
    {
      if step < TotalSteps {
        step := step + 1;
        ShowStep();
        UpdateNavigationButtons();
      }
    }

    method HandleSwipe(touchStartX: int, touchEndX: int)
      requires Valid()
      modifies this
      ensures Valid() && State() == SwipeSpec(old(State()), touchStartX, touchEndX)
    {
      var diff := touchStartX - touchEndX;
      if diff > SwipeThreshold || diff < -SwipeThreshold {
        if diff > 0 && !nextDisabled {
          NextStep();
        } else if diff < 0 && !prevDisabled {
          PreviousStep();
        }
      }
    }

    /** `scanBarcode` with the random number drawn. */
    method ScanBarcode(r: nat)
      requires Valid() && r < 10000
      modifies this
      ensures Valid() && State() == ScanSpec(old(State()), r)
    {
      cycleData := cycleData.(barcode := ScannedBarcode(r));
      NextStep();
    }

    /** `updateChart`: push the point labelled with the number of labels, then drop the oldest beyond 50. */
    method UpdateChart(torque: real, angle: real)
      requires ChartWindow(chart)
      modifies this
      ensures ChartWindow(chart)
      ensures State() == old(State()).(chart := AddPointAsWritten(old(chart), torque, angle))
    {
      UpdateChartAsWritten(chart, torque, angle);
      var timePoint := |chart.labels|;
      var labels := chart.labels + [timePoint];
      var torques := chart.torques + [torque];
      var angles := chart.angles + [angle];
      if |labels| > ChartLimit {
        labels := labels[1..];
        torques := torques[1..];
        angles := angles[1..];
      }
      chart := Chart(labels, torques, angles);
    }

    /** `startTighteningProcess` resets the tool values. */
    method StartTightening()
      modifies this
      ensures State() == old(State()).(torque := 0.0, angle := 0.0)
    {
      currentTorque := 0.0;
      currentAngle := 0.0;
    }

    /** One tick of the interval, with the random increments drawn. */
    method Tick(dTorque: real, dAngle: real) returns (done: bool)
      requires Valid()
      modifies this
      ensures Valid() && (done, State()) == TickSpec(old(State()), dTorque, dAngle)
    {
      currentTorque := currentTorque + dTorque;
      currentAngle := currentAngle + dAngle;
      UpdateChart(currentTorque, currentAngle);
      done := TighteningDone(currentTorque, currentAngle);
      if done {
        cycleData := cycleData.(finalTorque := currentTorque, finalAngle := RoundJs(currentAngle));
      }
    }

    /** The interval: ticks until the stop test holds, or the increments run out. */
    method Tighten(incs: seq<(real, real)>) returns (ticks: nat, done: bool)
      requires Valid()
      modifies this
      ensures Valid() && (ticks, done, State()) == TightenSpec(old(State()), incs)
    {
      ticks := 0;
      done := false;
      ghost var goal := TightenSpec(State(), incs);
      while ticks < |incs| && !done
        invariant Valid() && ticks <= |incs|
        invariant !done ==> goal == After(ticks, TightenSpec(State(), incs[ticks..]))
        invariant done ==> goal == (ticks, true, State())
        decreases |incs| - ticks, if done then 0 else 1
      {
        ghost var rest := incs[ticks..];
        ghost var before := State();
        assert goal == After(ticks, TightenSpec(before, rest));
        assert rest[0] == incs[ticks] && rest[1..] == incs[ticks + 1..];
        done := Tick(incs[ticks].0, incs[ticks].1);
        TightenUnfold(before, rest);
        if !done {
          ghost var r := TightenSpec(State(), incs[ticks + 1..]);
          assert TightenSpec(before, rest) == After(1, r);
          AfterAfter(ticks, r);
        }
        ticks := ticks + 1;
      }
      if !done {
        assert incs[ticks..] == [];
      }
    }

    method SimulatePass()
      requires Valid()
      modifies this
      ensures Valid() && State() == PassSpec(old(State()))
    {
      isPassSequence := true;
      cycleData := cycleData.(result := "PASS");
      NextStep();
    }

    method SimulateFail()
      requires Valid()
      modifies this
      ensures Valid() && State() == FailSpec(old(State()))
    {
      isPassSequence := false;
      cycleData := cycleData.(result := "FAIL");
      step := 6;
      ShowStep();
      UpdateNavigationButtons();
    }

    /** `restartCycle`, with the clock reading and the random pass/fail choice drawn. */
    method RestartCycle(now: int, nextIsPass: bool)
      requires Valid()
      modifies this
      ensures Valid() && State() == RestartSpec(old(State()), now, nextIsPass)
    {
      cycleData := CycleData("", 0.0, 0, "", 0.0, now);
      step := 1;
      ShowStep();
      UpdateNavigationButtons();
      isPassSequence := nextIsPass;
    }

    method SubmitPassword(password: string) returns (accepted: bool)
      requires Valid()
      modifies this
      ensures accepted <==> password == DemoPassword
      ensures Valid() && State() == PasswordSpec(old(State()), password)
    {
      accepted := password == DemoPassword;
      if accepted {
        step := 1;
        ShowStep();
        UpdateNavigationButtons();
      }
    }
  }
}
