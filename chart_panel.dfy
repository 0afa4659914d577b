/**
 * The chart configuration panel (`chartPanelConfig.ts`): the colour helpers
 * `rgbaToHex` and `getColorValue`, the `PanelWidgetUpdate` the panel hands to
 * the dashboard, and the `ChartConfigPanel` class over an abstract form state.
 *
 * The form state records what the panel's controls hold or show: the input
 * values, which groups are displayed, the options of the slice selector, the
 * selected option, and the y-axis checkbox's `checked` and `disabled` flags.
 * The DOM itself, Bootstrap's offcanvas and the lookup of the controls in the
 * constructor are not part of this model; `shown` stands for the offcanvas
 * being open.
 */
module ChartPanel {
  import opened Wrappers
  import opened JsText
  import opened WidgetModel

  /** The colour returned for input that is neither hex nor a usable `rgba(...)`. */
  const Black: string := "#000000"

  /** The colour a picker falls back to when the conversion yields nothing. */
  const DefaultPickerColor: string := "#563d7c"

  /** Help text shown under both colour pickers for a widget without a chart. */
  const SliceHelpText: string := "For the selected slice/bar."

  // ---------------------------------------------------------------------------
  // rgbaToHex

  /** One channel: `parseInt(part, 10).toString(16).padStart(2, '0')`, where
      `NaN` prints as "NaN" and a negative value keeps its minus sign. */
  function ChannelHex(part: string): (h: string)
    ensures |h| >= 2
    ensures ParseInt(part).None? ==> h == "NaN"
    ensures ParseInt(part).Some? && 0 <= ParseInt(part).value < 256 ==> h == Hex2(ParseInt(part).value)
  {
    match ParseInt(part)
    case None => PadStart2("NaN")
    case Some(n) =>
      if 0 <= n < 256 then TwoHexDigits(n); PadStart2(HexString(n))
      else PadStart2(HexString(n))
  }

  /**
   * `rgbaToHex`: a colour as the `#rrggbb` string a colour picker accepts.
   * Hex input passes through; anything else that does not start with `rgba`
   * is black; otherwise the text between the first `(` and the last `)` is
   * split into comma-separated parts and the first three are printed as two
   * hexadecimal digits each, the alpha part being dropped.
   *
   * The source splits at `/,\s*` and then calls `parseInt`; splitting at ','
   * alone gives the same parts up to leading white space, which `parseInt`
   * skips (both use ECMAScript's white-space set), so the channels agree.
   */
  function RgbaToHex(rgba: string): (hex: string)
    ensures |hex| >= 1 && hex[0] == '#'
    ensures StartsWith(rgba, "#") ==> hex == rgba
  {
    if StartsWith(rgba, "#") then rgba
    else if !StartsWith(rgba, "rgba") then Black
    else
      var inner := Substring(rgba, IndexOf(rgba, '(') + 1, LastIndexOf(rgba, ')'));
      var parts := SplitOnComma(inner);
      if |parts| < 3 then Black
      else "#" + ChannelHex(parts[0]) + ChannelHex(parts[1]) + ChannelHex(parts[2])
  }

  /** Converting twice is converting once: every result starts with '#'. */
  lemma RgbaToHexIdempotent(s: string)
    ensures RgbaToHex(RgbaToHex(s)) == RgbaToHex(s)
  {
  }

  /** Input that is neither hex nor `rgba`-prefixed, the empty string and
      `rgb(...)` among it, is black; so is an `rgba` with fewer than three
      comma-separated parts. */
  lemma RgbaToHexFallbacks(s: string)
    ensures !StartsWith(s, "#") && !StartsWith(s, "rgba") ==> RgbaToHex(s) == Black
    ensures RgbaToHex("") == Black
  {
  }

  /** The line chart's border colour `rgb(...)` is not understood. */
  lemma RgbIsBlack()
    ensures RgbaToHex("rgb(255, 159, 64)") == Black
  {
    var s := "rgb(255, 159, 64)";
    assert s[3] == '(' && s[0] == 'r';
    assert !StartsWith(s, "rgba") && !StartsWith(s, "#");
  }

  /** `rgbaToHex` of `rgba(<inner>)` reads the comma-separated parts of
      `inner`. */
  lemma RgbaWrapped(inner: string, s: string)
    requires s == "rgba(" + inner + ")"
    ensures RgbaToHex(s) == Black <== |SplitOnComma(inner)| < 3
    ensures |SplitOnComma(inner)| >= 3 ==>
      RgbaToHex(s) == "#" + ChannelHex(SplitOnComma(inner)[0]) + ChannelHex(SplitOnComma(inner)[1])
                          + ChannelHex(SplitOnComma(inner)[2])
  {
    assert s[0] == 'r' && s[1] == 'g' && s[2] == 'b' && s[3] == 'a' && s[4] == '(';
    assert s[..4] == "rgba" && s[..1] != "#";
    var k := IndexOf(s, '(');
    assert k == 4 by {
      assert s[4] in s[..5];
    }
    assert LastIndexOf(s, ')') == |s| - 1;
    assert Substring(s, 5, |s| - 1) == inner;
  }

  /** `rgba(a, b)` has only two comma-separated parts: too few. */
  lemma TwoPartsIsBlack(a: string, b: string)
    requires ',' !in a && ',' !in b
    ensures RgbaToHex("rgba(" + a + "," + b + ")") == Black
  {
    SplitAfterHead(a, b);
    SplitNoComma(b);
    RgbaWrapped(a + "," + b, "rgba(" + a + "," + b + ")");
  }

  /** The text `rgba(r, g, b, alpha)` as the catalog writes it. */
  function RgbaText(r: nat, g: nat, b: nat, alpha: string): string {
    "rgba(" + ChannelText(r, g, b, alpha) + ")"
  }

  /** A channel written in decimal, after optional white space, prints as
      two hexadecimal digits. */
  lemma ChannelHexOf(ws: string, n: nat)
    requires n < 256
    requires AllWhiteSpace(ws)
    ensures ChannelHex(ws + DecimalString(n)) == Hex2(n)
  {
    ParseDecimal(ws, n, "");
    assert ws + DecimalString(n) + "" == ws + DecimalString(n);
    TwoHexDigits(n);
  }

  /** The first three comma-separated parts of `a0,a1,a2,rest` when none of
      `a0`, `a1`, `a2` holds a comma. */
  lemma {:induction false} SplitChannels(a0: string, a1: string, a2: string, rest: string)
    requires ',' !in a0 && ',' !in a1 && ',' !in a2
    ensures var parts := SplitOnComma(a0 + "," + a1 + "," + a2 + "," + rest);
      |parts| >= 3 && parts[0] == a0 && parts[1] == a1 && parts[2] == a2
  {
    var t2 := a2 + "," + rest;
    var t1 := a1 + "," + t2;
    assert a0 + "," + a1 + "," + a2 + "," + rest == a0 + "," + t1;
    SplitAfterHead(a0, t1);
    SplitAfterHead(a1, t2);
    SplitAfterHead(a2, rest);
  }

  /** A channel value below 256 as two lower-case hexadecimal digits. */
  function Hex2(n: nat): (h: string)
    requires n < 256
    ensures |h| == 2 && h[0] in "0123456789abcdef" && h[1] in "0123456789abcdef"
  {
    [HexDigit(n / 16), HexDigit(n % 16)]
  }

  /** The text between the parentheses of `RgbaText(r, g, b, alpha)`. */
  function ChannelText(r: nat, g: nat, b: nat, alpha: string): string {
    DecimalString(r) + ", " + DecimalString(g) + ", " + DecimalString(b) + ", " + alpha
  }

  /** Channels written in decimal, each after its own white space, separated
      by bare commas and followed by `,rest`. */
  function SpacedChannels(ws0: string, ws1: string, ws2: string, r: nat, g: nat, b: nat, rest: string): string {
    ws0 + DecimalString(r) + "," + ws1 + DecimalString(g) + "," + ws2 + DecimalString(b) + "," + rest
  }

  /** `ChannelText` is the spacing `r, g, b, alpha`. */
  lemma ChannelTextSpaced(r: nat, g: nat, b: nat, alpha: string)
    ensures ChannelText(r, g, b, alpha) == SpacedChannels("", " ", " ", r, g, b, " " + alpha)
  {
  }

  /** The first three comma-separated parts of `SpacedChannels` print as the
      three channels in hex, whatever white space precedes each. */
  lemma {:induction false} ChannelParts(ws0: string, ws1: string, ws2: string, r: nat, g: nat, b: nat, rest: string)
    requires r < 256 && g < 256 && b < 256
    requires AllWhiteSpace(ws0) && AllWhiteSpace(ws1) && AllWhiteSpace(ws2)
    ensures var parts := SplitOnComma(SpacedChannels(ws0, ws1, ws2, r, g, b, rest));
      && |parts| >= 3
      && ChannelHex(parts[0]) == Hex2(r) && ChannelHex(parts[1]) == Hex2(g) && ChannelHex(parts[2]) == Hex2(b)
  {
    var dr, dg, db := DecimalString(r), DecimalString(g), DecimalString(b);
    ChannelNoComma(ws0, dr);
    ChannelNoComma(ws1, dg);
    ChannelNoComma(ws2, db);
    SplitChannels(ws0 + dr, ws1 + dg, ws2 + db, rest);
    assert SpacedChannels(ws0, ws1, ws2, r, g, b, rest) == (ws0 + dr) + "," + (ws1 + dg) + "," + (ws2 + db) + "," + rest;
    ChannelHexOf(ws0, r);
    ChannelHexOf(ws1, g);
    ChannelHexOf(ws2, b);
  }

  /** White space followed by decimal digits holds no comma. */
  lemma ChannelNoComma(ws: string, d: string)
    requires AllWhiteSpace(ws) && AllDigits(d)
    ensures ',' !in ws + d
  {
    NoCommaInDigits(d);
    WhiteSpaceNoComma(ws);
  }

  /**
   * `rgbaToHex` of `rgba(` channels `)` for channels 0..255: '#' and two
   * lower-case hexadecimal digits per channel, seven characters, whatever
   * white space follows the parenthesis and each comma (the source splits at
   * a comma and the white space after it, and `parseInt` skips leading white
   * space) and whatever follows the third channel's comma.
   */
  lemma {:induction false} RgbaToHexSpaced(ws0: string, ws1: string, ws2: string, r: nat, g: nat, b: nat, rest: string)
    requires r < 256 && g < 256 && b < 256
    requires AllWhiteSpace(ws0) && AllWhiteSpace(ws1) && AllWhiteSpace(ws2)
    ensures var hex := RgbaToHex("rgba(" + SpacedChannels(ws0, ws1, ws2, r, g, b, rest) + ")");
      hex == "#" + Hex2(r) + Hex2(g) + Hex2(b) && |hex| == 7
  {
    var inner := SpacedChannels(ws0, ws1, ws2, r, g, b, rest);
    ChannelParts(ws0, ws1, ws2, r, g, b, rest);
    RgbaWrapped(inner, "rgba(" + inner + ")");
  }

  /** The catalog's spacing `rgba(r, g, b, alpha)`, one space after each
      comma. */
  lemma {:induction false} RgbaToHexChannels(r: nat, g: nat, b: nat, alpha: string)
    requires r < 256 && g < 256 && b < 256
    ensures RgbaToHex(RgbaText(r, g, b, alpha)) == "#" + Hex2(r) + Hex2(g) + Hex2(b)
    ensures |RgbaToHex(RgbaText(r, g, b, alpha))| == 7
  {
    ChannelTextSpaced(r, g, b, alpha);
    assert AllWhiteSpace(" ") by { assert IsWhiteSpace(' '); }
    RgbaToHexSpaced("", " ", " ", r, g, b, " " + alpha);
  }

  /** `rgba(255,0,0,0.6)`, with no spaces, converts like the spaced form. */
  lemma UnspacedExample()
    ensures RgbaToHex("rgba(" + SpacedChannels("", "", "", 255, 0, 0, "0.6") + ")") == "#" + Hex2(255) + Hex2(0) + Hex2(0)
  {
    RgbaToHexSpaced("", "", "", 255, 0, 0, "0.6");
  }

  /** The doughnut's first slice colour `rgba(255, 99, 132, ...)` becomes
      `#ff6384`, whatever its alpha. */
  lemma RgbaToHexExample(alpha: string)
    ensures RgbaToHex(RgbaText(255, 99, 132, alpha)) == "#ff6384"
  {
    RgbaToHexChannels(255, 99, 132, alpha);
    HexExample();
  }

  lemma HexExample()
    ensures "#" + Hex2(255) + Hex2(99) + Hex2(132) == "#ff6384"
  {
    assert Hex2(255) == "ff" && Hex2(99) == "63" && Hex2(132) == "84";
  }

  /** The text of a catalog colour. */
  lemma RgbaTextExample()
    ensures RgbaText(255, 99, 132, "0.6") == "rgba(255, 99, 132, 0.6)"
  {
    Decimal255();
    Decimal99();
    Decimal132();
  }

  lemma Decimal255() ensures DecimalString(255) == "255" { DecimalThreeDigits(255); }
  lemma Decimal99() ensures DecimalString(99) == "99" { DecimalTwoDigits(99); }
  lemma Decimal132() ensures DecimalString(132) == "132" { DecimalThreeDigits(132); }

  // ---------------------------------------------------------------------------
  // Reading a dataset colour

  /** `getColorValue`: the first element of a colour array (`''` if there is
      none), a single colour itself, and `''` for anything else. */
  function ColorValue(c: Color): (v: string)
    ensures v == "" || (c.Scalar? && v == c.color) || (c.PerElement? && v in c.colors)
    ensures v == SliceColor(c, 0)
  {
    match c
    case PerElement(cs) => if |cs| > 0 then cs[0] else ""
    case Scalar(s) => s
    case Absent => ""
  }

  /** `(colors[i] as string) || ''` with `colors` the colour as an array: a
      single colour counts as a one-element array and `undefined` as the
      array `[undefined]`. */
  function SliceColor(c: Color, i: nat): (v: string)
    ensures v == "" || (c.Scalar? && v == c.color) || (c.PerElement? && v in c.colors)
    ensures c.Scalar? && i > 0 ==> v == ""
    ensures c.PerElement? && i < |c.colors| ==> v == c.colors[i]
  {
    match c
    case PerElement(cs) => if i < |cs| then cs[i] else ""
    case Scalar(s) => if i == 0 then s else ""
    case Absent => ""
  }

  lemma ColorValueCases(c: Color)
    ensures c.PerElement? && |c.colors| > 0 ==> ColorValue(c) == c.colors[0]
    ensures c.PerElement? && |c.colors| == 0 ==> ColorValue(c) == ""
    ensures c.Scalar? ==> ColorValue(c) == c.color
    ensures c.Absent? ==> ColorValue(c) == ""
  {
  }

  /** The overall colour and the colour of slice 0 always agree. */
  lemma ColorValueIsFirstSlice(c: Color)
    ensures ColorValue(c) == SliceColor(c, 0)
  {
  }

  /** `rgbaToHex(raw) || '#563d7c'`: the fallback is never taken, because the
      conversion never returns the empty string. */
  function ShownColor(raw: string): (shown: string)
    ensures shown == RgbaToHex(raw)
  {
    var hex := RgbaToHex(raw);
    if hex != "" then hex else DefaultPickerColor
  }

  /** On a single colour every slice after the first shows as black. */
  lemma ScalarLaterSliceIsBlack(s: string, i: nat)
    requires i > 0
    ensures ShownColor(SliceColor(Scalar(s), i)) == Black
  {
  }

  // ---------------------------------------------------------------------------
  // Slice selector

  /** The chart types that get a slice/bar selector. */
  predicate IsSliceKind(kind: string) {
    kind == "pie" || kind == "doughnut" || kind == "bar"
  }

  /** The name of slice `i`: its label, or `Item i+1` when the label is
      missing or empty. */
  function SliceLabel(labels: seq<string>, i: nat): (name: string)
    ensures name != ""
    ensures i < |labels| && labels[i] != "" ==> name == labels[i]
  {
    if i < |labels| && labels[i] != "" then labels[i] else "Item " + DecimalString(i + 1)
  }

  /** The text of option `i` of the slice selector, `"i: <name>"`. */
  function SliceOptionText(i: nat, labels: seq<string>): string {
    DecimalString(i) + (": " + SliceLabel(labels, i))
  }

  /** The number an option shows is its index: `parseInt` of its text gives
      the index back, whatever the label. */
  lemma SliceOptionIndex(i: nat, labels: seq<string>)
    ensures ParseInt(SliceOptionText(i, labels)) == Some(i)
  {
    NumberedIndex(i, SliceLabel(labels, i));
  }

  lemma NumberedIndex(i: nat, name: string)
    ensures ParseInt(DecimalString(i) + (": " + name)) == Some(i)
  {
    var rest := ": " + name;
    assert rest[0] == ':';
    ParseLeadingDecimal(i, rest);
  }


  /** Options are numbered from 0 and named by label, falling back to
      `Item i+1`. */
  lemma SliceOptionTextExamples()
    ensures SliceOptionText(0, ["Electronics", "Books"]) == "0: Electronics"
    ensures SliceOptionText(1, ["Electronics", ""]) == "1: Item 2"
    ensures SliceOptionText(2, ["Electronics", "Books"]) == "2: Item 3"
  {
  }

  /** Length of the first dataset's data, 0 when there is no dataset. */
  function FirstDataLength(c: Chart): nat {
    if |c.datasets| > 0 then |c.datasets[0].data| else 0
  }

  /** `firstDataset?.label || ''` */
  function FirstLabelText(c: Chart): string {
    if |c.datasets| > 0 && c.datasets[0].seriesLabel.Some? then c.datasets[0].seriesLabel.value else ""
  }

  /** A string property written into an input: JavaScript converts a missing
      value to the text "undefined". */
  function InputText(s: Option<string>): string {
    s.GetOr("undefined")
  }

  // ---------------------------------------------------------------------------
  // Form state

  /** The two colour pickers and their help texts. */
  datatype ColorFields = ColorFields(bg: string, border: string, bgHelp: string, borderHelp: string)

  /** The slice/bar selector: option i has value i and text `options[i]`;
      `selection` is the selected option's value, None when there are no
      options; `visible` is whether its group is displayed. */
  datatype SliceSelector = SliceSelector(options: seq<string>, selection: Option<nat>, visible: bool)

  /** The `beginAtZero` checkbox and whether its group is displayed. */
  datatype AxisControl = AxisControl(checked: bool, disabled: bool, visible: bool)

  datatype Form = Form(
    widgetId: string,
    title: string,
    chartSectionVisible: bool,
    datasetLabel: string,
    slices: SliceSelector,
    colors: ColorFields,
    yAxis: AxisControl)

  /**
   * What the colour pickers and help texts show for the first dataset of
   * `c`: the selected slice's colour when the selector is visible and the
   * selection lies within the data, the overall colour otherwise.
   */
  function ColorFieldsFor(c: Chart, selection: Option<nat>, selectorVisible: bool): (f: ColorFields)
    requires |c.datasets| > 0
    ensures |f.bg| >= 1 && f.bg[0] == '#' && |f.border| >= 1 && f.border[0] == '#'
    ensures selectorVisible && selection.Some? && selection.value < |c.datasets[0].data| ==>
      && f.bg == RgbaToHex(SliceColor(c.datasets[0].backgroundColor, selection.value))
      && f.border == RgbaToHex(SliceColor(c.datasets[0].borderColor, selection.value))
      && f.bgHelp == "Background for: " + SliceLabel(c.labels, selection.value)
      && f.borderHelp == "Border for: " + SliceLabel(c.labels, selection.value)
    ensures !(selectorVisible && selection.Some? && selection.value < |c.datasets[0].data|) ==>
      && f.bg == RgbaToHex(ColorValue(c.datasets[0].backgroundColor))
      && f.border == RgbaToHex(ColorValue(c.datasets[0].borderColor))
      && f.bgHelp == "Overall background color." && f.borderHelp == "Overall border color."
  {
    var d := c.datasets[0];
    if selectorVisible && selection.Some? && selection.value < |d.data| then
      var i := selection.value;
      var name := SliceLabel(c.labels, i);
      ColorFields(ShownColor(SliceColor(d.backgroundColor, i)), ShownColor(SliceColor(d.borderColor, i)),
                  "Background for: " + name, "Border for: " + name)
    else
      ColorFields(ShownColor(ColorValue(d.backgroundColor)), ShownColor(ColorValue(d.borderColor)),
                  "Overall background color.", "Overall border color.")
  }

  /** Selecting slice 0, as opening the panel does, shows the same colours
      as the overall view, converted to hex. */
  /** With the selector shown and slice `i` selected, a per-slice colour
      array shows its element `i` in hex, named by the slice's label. */
  lemma SliceShowsElement(c: Chart, i: nat)
    requires |c.datasets| > 0 && i < |c.datasets[0].data|
    requires c.datasets[0].backgroundColor.PerElement? && i < |c.datasets[0].backgroundColor.colors|
    ensures ColorFieldsFor(c, Some(i), true).bg == RgbaToHex(c.datasets[0].backgroundColor.colors[i])
    ensures ColorFieldsFor(c, Some(i), true).bgHelp == "Background for: " + SliceLabel(c.labels, i)
  {
  }

  /** With the selector hidden, whatever is selected, the pickers show the
      overall colours with the overall help texts. */
  lemma HiddenShowsOverall(c: Chart, selection: Option<nat>)
    requires |c.datasets| > 0
    ensures ColorFieldsFor(c, selection, false) ==
      ColorFields(RgbaToHex(ColorValue(c.datasets[0].backgroundColor)),
                  RgbaToHex(ColorValue(c.datasets[0].borderColor)),
                  "Overall background color.", "Overall border color.")
  {
  }

  lemma FirstSliceShowsOverallColor(c: Chart)
    requires |c.datasets| > 0
    ensures ColorFieldsFor(c, Some(0), true).bg == RgbaToHex(ColorValue(c.datasets[0].backgroundColor))
    ensures ColorFieldsFor(c, Some(0), true).border == RgbaToHex(ColorValue(c.datasets[0].borderColor))
  {
    ColorValueIsFirstSlice(c.datasets[0].backgroundColor);
    ColorValueIsFirstSlice(c.datasets[0].borderColor);
  }

  /** `PanelWidgetUpdate`: the edit the panel submits. */
  datatype PanelUpdate = PanelUpdate(
    title: string,
    datasetLabel: Option<string>,
    datasetBgColor: Option<string>,
    datasetBorderColor: Option<string>,
    selectedColorIndex: Option<nat>,
    yAxisBeginAtZero: Option<bool>)

  datatype Submission = Submission(widgetId: string, update: PanelUpdate)

  /**
   * The update `handleSubmit` builds from the form: the title always; the
   * dataset label and both colours only while the chart section is shown;
   * the selected index only while the slice selector is shown too; and
   * `yAxisBeginAtZero` as "checked and not disabled".
   */
  function SubmittedUpdate(f: Form): (u: PanelUpdate)
    requires f.slices.visible ==> f.slices.selection.Some?
    ensures u.title == f.title
    ensures u.datasetLabel.Some? <==> f.chartSectionVisible
    ensures u.datasetLabel.Some? ==> u.datasetLabel.value == f.datasetLabel
    ensures u.datasetBgColor.Some? <==> f.chartSectionVisible
    ensures u.datasetBgColor.Some? ==> u.datasetBgColor.value == f.colors.bg
    ensures u.datasetBorderColor.Some? <==> f.chartSectionVisible
    ensures u.datasetBorderColor.Some? ==> u.datasetBorderColor.value == f.colors.border
    ensures u.selectedColorIndex.Some? <==> f.chartSectionVisible && f.slices.visible
    ensures u.selectedColorIndex.Some? ==> u.selectedColorIndex == f.slices.selection
    ensures u.yAxisBeginAtZero.Some? <==> f.chartSectionVisible
    ensures u.yAxisBeginAtZero == Some(true) <==>
              f.chartSectionVisible && f.yAxis.checked && !f.yAxis.disabled
  {
    if !f.chartSectionVisible then PanelUpdate(f.title, None, None, None, None, None)
    else
      PanelUpdate(
        f.title, Some(f.datasetLabel), Some(f.colors.bg), Some(f.colors.border),
        if f.slices.visible then f.slices.selection else None,
        Some(f.yAxis.checked && !f.yAxis.disabled))
  }

  // ---------------------------------------------------------------------------
  // The panel

  class ChartConfigPanel {
    /** `currentEditingWidgetData` */
    var editing: Option<Widget>
    var form: Form
    /** Whether the offcanvas panel is open. */
    var shown: bool

    /** A selected option exists, and a visible selector has one selected. */
    ghost predicate Valid()
      reads this
    {
      && (form.slices.selection.Some? ==> form.slices.selection.value < |form.slices.options|)
      && (form.slices.visible ==> form.slices.selection.Some?)
    }

    /** The panel starts closed, editing nothing, with empty controls. */
    constructor ()
      ensures Valid() && editing.None? && !shown
      ensures !form.chartSectionVisible && !form.slices.visible && form.slices.options == []
    {
      editing := None;
      form := Form("", "", false, "", SliceSelector([], None, false), ColorFields("", "", "", ""),
                   AxisControl(false, false, false));
      shown := false;
    }

    /**
     * `populateSliceSelector`: one option per data point, named by
     * `SliceOptionText`, with option 0 selected; with no data the selector
     * is emptied and hidden.
     */
    method PopulateSliceSelector(dataLength: nat, labels: seq<string>)
      modifies this
      ensures editing == old(editing) && shown == old(shown)
      ensures |form.slices.options| == dataLength
      ensures forall i :: 0 <= i < dataLength ==> form.slices.options[i] == SliceOptionText(i, labels)
      ensures form.slices.selection == if dataLength > 0 then Some(0) else None
      ensures form.slices.visible == (dataLength > 0 && old(form).slices.visible)
      ensures form == old(form).(slices := form.slices)
    {
      form := form.(slices := form.slices.(options := [], selection := None));
      if dataLength == 0 {
        form := form.(slices := form.slices.(visible := false));
        return;
      }
      var options: seq<string> := [];
      var i := 0;
      while i < dataLength
        invariant 0 <= i <= dataLength
        invariant |options| == i
        invariant forall j :: 0 <= j < i ==> options[j] == SliceOptionText(j, labels)
      {
        options := options + [SliceOptionText(i, labels)];
        i := i + 1;
      }
      form := form.(slices := form.slices.(options := options, selection := Some(0)));
    }

    /**
     * `updateColorFieldsForSelectedSlice`: when a chart with a dataset is
     * being edited, the pickers and help texts become `ColorFieldsFor` the
     * current selection; otherwise nothing changes.
     */
    method UpdateColorFieldsForSelectedSlice()
      modifies this
      ensures editing == old(editing) && shown == old(shown)
      ensures form == old(form).(colors := form.colors)
      ensures editing.Some? && editing.value.chart.Some? && |editing.value.chart.value.datasets| > 0 ==>
        form.colors == ColorFieldsFor(editing.value.chart.value, form.slices.selection, form.slices.visible)
      ensures !(editing.Some? && editing.value.chart.Some? && |editing.value.chart.value.datasets| > 0) ==>
        form.colors == old(form).colors
    {
      if editing.None? || editing.value.chart.None? {
        return;
      }
      var chart := editing.value.chart.value;
      if |chart.datasets| == 0 {
        return;
      }
      var first := chart.datasets[0];
      var selected := form.slices.selection;
      var selectorVisible := form.slices.visible;
      var bg, border := DefaultPickerColor, DefaultPickerColor;
      var bgHelp, borderHelp;
      if selectorVisible && selected.Some? && selected.value < |first.data| {
        var i := selected.value;
        bg := ShownColor(SliceColor(first.backgroundColor, i));
        border := ShownColor(SliceColor(first.borderColor, i));
        var name := SliceLabel(chart.labels, i);
        bgHelp, borderHelp := "Background for: " + name, "Border for: " + name;
      } else {
        bg := ShownColor(ColorValue(first.backgroundColor));
        border := ShownColor(ColorValue(first.borderColor));
        bgHelp, borderHelp := "Overall background color.", "Overall border color.";
      }
      form := form.(colors := ColorFields(bg, border, bgHelp, borderHelp));
    }

    /**
     * `open`: load a widget into the form and show the panel. For a chart,
     * the slice selector appears only for pie, doughnut and bar charts with
     * data, the pickers show slice 0 (which is the overall colour), and the
     * y-axis checkbox starts as `beginAtZero` (false when unset) and is
     * disabled and hidden for pie and doughnut charts. Without a chart the
     * chart controls are reset and hidden; the checkbox's `disabled` flag and
     * the slice options are left as they were.
     */
    method Open(w: Widget)
      requires Valid()
      modifies this
      ensures Valid()
      ensures editing == Some(w) && shown
      ensures form.widgetId == w.id && form.title == InputText(w.title)
      ensures form.chartSectionVisible == w.chart.Some?
      ensures w.chart.Some? ==> ShowsChart(w.chart.value, old(form).colors)
      ensures w.chart.None? ==>
        && !form.slices.visible && form.datasetLabel == ""
        && form.colors == ColorFields(Black, Black, SliceHelpText, SliceHelpText)
        && !form.yAxis.checked && !form.yAxis.visible && form.yAxis.disabled == old(form).yAxis.disabled
        && form.slices.options == old(form).slices.options && form.slices.selection == old(form).slices.selection
    {
      editing := Some(w);
      form := form.(widgetId := w.id, title := InputText(w.title), chartSectionVisible := w.chart.Some?);
      if w.chart.Some? {
        LoadChart(w.chart.value);
      } else {
        form := form.(slices := form.slices.(visible := false), datasetLabel := "",
                      colors := ColorFields(Black, Black, SliceHelpText, SliceHelpText),
                      yAxis := form.yAxis.(checked := false, visible := false));
      }
      shown := true;
    }

    /** What the chart controls show after `open` loaded chart `c`; the
        pickers keep `colors` when `c` has no dataset. */
    ghost predicate ShowsChart(c: Chart, colors: ColorFields)
      reads this
    {
      var n := FirstDataLength(c);
      && form.datasetLabel == FirstLabelText(c)
      && |form.slices.options| == n
      && (forall i :: 0 <= i < n ==> form.slices.options[i] == SliceOptionText(i, c.labels))
      && form.slices.selection == (if n > 0 then Some(0) else None)
      && form.slices.visible == (IsSliceKind(c.kind) && n > 0)
      && (|c.datasets| > 0 ==> form.colors == ColorFieldsFor(c, form.slices.selection, form.slices.visible))
      && (|c.datasets| == 0 ==> form.colors == colors)
      && form.yAxis.checked == BeginAtZero(c).GetOr(false)
      && form.yAxis.disabled == IsProportion(c.kind)
      && form.yAxis.visible == !IsProportion(c.kind)
    }

    /** The chart branch of `open`, for the chart of the widget being edited. */
    method LoadChart(c: Chart)
      requires editing.Some? && editing.value.chart == Some(c)
      modifies this
      ensures Valid()
      ensures editing == old(editing) && shown == old(shown)
      ensures form.widgetId == old(form).widgetId && form.title == old(form).title
      ensures form.chartSectionVisible == old(form).chartSectionVisible
      ensures ShowsChart(c, old(form).colors)
    {
      var n := FirstDataLength(c);
      form := form.(datasetLabel := FirstLabelText(c));
      PopulateSliceSelector(n, c.labels);
      form := form.(slices := form.slices.(visible := IsSliceKind(c.kind) && n > 0));
      UpdateColorFieldsForSelectedSlice();
      var proportion := IsProportion(c.kind);
      form := form.(yAxis := AxisControl(BeginAtZero(c).GetOr(false), proportion, !proportion));
    }

    /** `handleSliceSelectionChange` after the user picks option `i`: the
        pickers follow the new selection. */
    method HandleSliceSelectionChange(i: nat)
      requires Valid() && i < |form.slices.options|
      modifies this
      ensures Valid()
      ensures editing == old(editing) && shown == old(shown)
      ensures form.slices.selection == Some(i)
      ensures editing.Some? && editing.value.chart.Some? && |editing.value.chart.value.datasets| > 0 ==>
        form.colors == ColorFieldsFor(editing.value.chart.value, Some(i), form.slices.visible)
      ensures !(editing.Some? && editing.value.chart.Some? && |editing.value.chart.value.datasets| > 0) ==>
        form.colors == old(form).colors
      ensures form == old(form).(slices := old(form).slices.(selection := Some(i)), colors := form.colors)
    {
      form := form.(slices := form.slices.(selection := Some(i)));
      UpdateColorFieldsForSelectedSlice();
    }

    /**
     * `handleSubmit`: with a widget being edited, hand its id and the
     * `SubmittedUpdate` of the form to the dashboard, close the panel and
     * forget the widget; with none, do nothing.
     */
    method HandleSubmit() returns (submission: Option<Submission>)
      requires Valid()
      modifies this
      ensures Valid()
      ensures old(editing).None? ==> submission.None? && editing == old(editing) && shown == old(shown)
      ensures old(editing).Some? ==>
        && submission == Some(Submission(old(editing).value.id, SubmittedUpdate(old(form))))
        && editing.None? && !shown
      ensures form == old(form)
    {
      if editing.None? {
        return None;
      }
      var widgetId := editing.value.id;
      var updates := PanelUpdate(form.title, None, None, None, None, None);
      if form.chartSectionVisible {
        updates := updates.(datasetLabel := Some(form.datasetLabel),
                            datasetBgColor := Some(form.colors.bg),
                            datasetBorderColor := Some(form.colors.border));
        if form.slices.visible {
          updates := updates.(selectedColorIndex := form.slices.selection);
        }
        updates := updates.(yAxisBeginAtZero := Some(form.yAxis.checked && !form.yAxis.disabled));
      }
      submission := Some(Submission(widgetId, updates));
      shown := false;
      editing := None;
    }
  }
}
