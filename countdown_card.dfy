/** One countdown card (components/CountdownCard.tsx): its expiry flag, the
    export-style popover, and the image export, whose canvas drawing is
    modelled as the sequence of draw commands it issues. */
module CountdownCard {
  import opened Types
  import opened Utils

  // ---------------------------------------------------------------------
  // Style presets
  // ---------------------------------------------------------------------

  datatype ColorPreset = ColorPreset(
    name: string,
    bg: string,
    text: string,
    accent: string,
    secondary: string,
    cardBg: string)

  datatype FontPreset = FontPreset(name: string, family: string)

  const ColorPresets: seq<ColorPreset> := [
    ColorPreset("Indigo", "#4f46e5", "#ffffff", "#ffffff", "#c7d2fe", "rgba(255, 255, 255, 0.15)"),
    ColorPreset("Slate", "#1e293b", "#ffffff", "#ffffff", "#94a3b8", "rgba(255, 255, 255, 0.1)"),
    ColorPreset("Rose", "#e11d48", "#ffffff", "#ffffff", "#fecdd3", "rgba(255, 255, 255, 0.15)"),
    ColorPreset("Emerald", "#059669", "#ffffff", "#ffffff", "#a7f3d0", "rgba(255, 255, 255, 0.15)"),
    ColorPreset("White", "#ffffff", "#1e293b", "#4f46e5", "#64748b", "#f8fafc")
  ]

  const Fonts: seq<FontPreset> := [
    FontPreset("Modern", "Inter, sans-serif"),
    FontPreset("Classic", "Georgia, serif"),
    FontPreset("Tech", "monospace")
  ]

  // ---------------------------------------------------------------------
  // Expiry
  // ---------------------------------------------------------------------

  /** `isExpired`: the reading has no time left. */
  predicate IsExpired(t: TimeRemaining) {
    t.totalMs <= 0
  }

  /** A computed reading is expired exactly when the target instant has
      been reached; a reading under one second is still running. */
  lemma ExpiredIffReached(targetMs: int, nowMs: int)
    ensures IsExpired(CalculateTimeRemaining(targetMs, nowMs)) <==> targetMs <= nowMs
  {
  }

  // ---------------------------------------------------------------------
  // Draw commands
  // ---------------------------------------------------------------------

  /** A step of a canvas path. */
  datatype PathOp =
    | MoveTo(x: real, y: real)
    | ArcTo(x1: real, y1: real, x2: real, y2: real, radius: real)
    | ClosePath

  /** A canvas call together with the fill style, stroke style and font in
      force when it is made. Text is drawn centred on `x`. */
  datatype DrawCmd =
    | FillRect(x: int, y: int, w: int, h: int, style: string)
    | FillText(text: string, x: int, y: int, font: CanvasFont, style: string)
    | FillPath(path: seq<PathOp>, style: string)
    | StrokePath(path: seq<PathOp>, style: string, lineWidth: int)

  /** A canvas font: weight, size in pixels and family. */
  datatype CanvasFont = CanvasFont(weight: string, size: nat, family: string) {
    /** The CSS shorthand `${weight} ${size}px ${family}` assigned to
        `ctx.font`. */
    function Shorthand(): string {
      weight + " " + NatToString(size) + "px " + family
    }
  }

  /** `fontStr(size, weight)`: the font of the chosen preset at that size
      and weight. */
  function FontStr(size: nat, weight: string, font: FontPreset): CanvasFont {
    CanvasFont(weight, size, font.family)
  }

  // ---------------------------------------------------------------------
  // roundRect
  // ---------------------------------------------------------------------

  function Min(a: real, b: real): real {
    if a <= b then a else b
  }

  /** The corner radius a rounded rectangle is drawn with: the requested
      radius, but no more than half the width and half the height. */
  function ClampedRadius(w: real, h: real, r: real): (c: real)
    ensures c <= r && c <= w / 2.0 && c <= h / 2.0
    ensures c == r || c == w / 2.0 || c == h / 2.0
  {
    Min(r, Min(w / 2.0, h / 2.0))
  }

  /** A radius that already fits is kept, and a non-negative box and
      radius give a non-negative radius. */
  lemma RadiusKeptWhenFits(w: real, h: real, r: real)
    ensures 2.0 * r <= w && 2.0 * r <= h ==> ClampedRadius(w, h, r) == r
    ensures 0.0 <= w && 0.0 <= h && 0.0 <= r ==> 0.0 <= ClampedRadius(w, h, r)
  {
  }

  /** The closed path around a box with corners of radius `r`. */
  function RoundedPath(x: real, y: real, w: real, h: real, r: real): seq<PathOp> {
    [ MoveTo(x + r, y),
      ArcTo(x + w, y, x + w, y + h, r),
      ArcTo(x + w, y + h, x, y + h, r),
      ArcTo(x, y + h, x, y, r),
      ArcTo(x, y, x + w, y, r),
      ClosePath ]
  }

  /** `roundRect`: narrows the radius to the width, then to the height,
      and traces the path. */
  method RoundRect(x: real, y: real, w: real, h: real, r: real) returns (path: seq<PathOp>)
    ensures path == RoundedPath(x, y, w, h, ClampedRadius(w, h, r))
  {
    var radius := r;
    if w < 2.0 * radius {
      radius := w / 2.0;
    }
    if h < 2.0 * radius {
      radius := h / 2.0;
    }
    path := [
      MoveTo(x + radius, y),
      ArcTo(x + w, y, x + w, y + h, radius),
      ArcTo(x + w, y + h, x, y + h, radius),
      ArcTo(x, y + h, x, y, radius),
      ArcTo(x, y, x + w, y, radius),
      ClosePath ];
  }

  // ---------------------------------------------------------------------
  // Export layout
  // ---------------------------------------------------------------------

  const CanvasWidth: int := 1200
  const CanvasHeight: int := 800
  const CenterX: int := CanvasWidth / 2
  const UnitCount: int := 4
  const CardWidth: int := 220
  const CardHeight: int := 240
  const Gap: int := 40
  const CornerRadius: int := 30
  const TotalWidth: int := UnitCount * CardWidth + (UnitCount - 1) * Gap
  const StartX: int := (CanvasWidth - TotalWidth) / 2
  const StartY: int := 340
  const ValueY: int := StartY + 130
  const LabelY: int := StartY + 185

  /** The left edge of the `i`-th unit card. */
  function CardX(i: int): int {
    StartX + i * (CardWidth + Gap)
  }

  /** The row of cards is centred: the halving that gives `StartX` is
      exact, and the margins on both sides are equal. */
  lemma RowCentred()
    ensures TotalWidth == 1000 && StartX == 100
    ensures 2 * StartX == CanvasWidth - TotalWidth
    ensures CanvasWidth - (CardX(UnitCount - 1) + CardWidth) == StartX
  {
  }

  /** Cards follow one another at exactly `Gap` pixels, never overlap, and
      lie inside the canvas. */
  lemma CardsSpaced(i: int, j: int)
    requires 0 <= i < j < UnitCount
    ensures CardX(i) == 100 + 260 * i
    ensures CardX(i) + CardWidth + Gap <= CardX(j)
    ensures j == i + 1 ==> CardX(j) - (CardX(i) + CardWidth) == Gap
    ensures 0 <= CardX(i) && CardX(j) + CardWidth <= CanvasWidth
  {
  }

  /** Every card, the last one included, has its place in the row and
      lies inside the canvas. */
  lemma CardPlaced(i: int)
    requires 0 <= i < UnitCount
    ensures CardX(i) == 100 + 260 * i
    ensures 0 <= CardX(i) && CardX(i) + CardWidth <= CanvasWidth
  {
  }

  /** A unit shown on a card: its value and its label. */
  datatype UnitReading = UnitReading(value: int, caption: string)

  /** The units in the order they are drawn. */
  function Units(t: TimeRemaining): seq<UnitReading> {
    [ UnitReading(t.days, "Days"),
      UnitReading(t.hours, "Hours"),
      UnitReading(t.minutes, "Mins"),
      UnitReading(t.seconds, "Secs") ]
  }

  function UpperChar(c: char): char {
    if 'a' <= c <= 'z' then (c as int - 32) as char else c
  }

  /** `toUpperCase` on ASCII letters. */
  function ToUpper(s: string): (u: string)
    ensures |u| == |s|
    ensures forall i :: 0 <= i < |s| ==> u[i] == UpperChar(s[i])
  {
    if s == [] then [] else [UpperChar(s[0])] + ToUpper(s[1..])
  }

  /** The title line: the event's title, or a stand-in for an empty one. */
  function TitleText(e: CountdownEvent): (s: string)
    ensures s != []
    ensures e.title == [] ==> s == "Untitled Event"
    ensures e.title != [] ==> s == e.title
  {
    if e.title == "" then "Untitled Event" else e.title
  }

  /** The subtitle line: the description, or a stand-in for a missing or
      empty one. */
  function DescriptionText(e: CountdownEvent): (s: string)
    ensures s != []
    ensures e.description == None || e.description == Some([]) ==> s == "Deadline Countdown"
    ensures e.description.Some? && e.description.value != [] ==> s == e.description.value
  {
    match e.description
    case None => "Deadline Countdown"
    case Some(d) => if d == "" then "Deadline Countdown" else d
  }

  /** The box of the `i`-th card; its corner radius fits, so it is kept. */
  function CardBox(i: int): seq<PathOp> {
    RoundedPath(CardX(i) as real, StartY as real, CardWidth as real, CardHeight as real,
      ClampedRadius(CardWidth as real, CardHeight as real, CornerRadius as real))
  }

  lemma CardCornersKept(i: int)
    ensures CardBox(i) == RoundedPath(CardX(i) as real, StartY as real, 220.0, 240.0, 30.0)
  {
    RadiusKeptWhenFits(CardWidth as real, CardHeight as real, CornerRadius as real);
  }

  /** What the export draws for the `i`-th unit: the card box (with a faint
      border on the white theme), the zero-padded value and the
      upper-cased label. */
  function CardCommands(u: UnitReading, i: int, color: ColorPreset, font: FontPreset): seq<DrawCmd> {
    [FillPath(CardBox(i), color.cardBg)] + CardBorder(i, color) + CardTexts(u, i, font, color)
  }

  /** The value and the label centred on the `i`-th card. */
  function CardTexts(u: UnitReading, i: int, font: FontPreset, color: ColorPreset): seq<DrawCmd> {
    var x := CardX(i);
    [ FillText(FormatTimeNumber(u.value), x + CardWidth / 2, ValueY, FontStr(96, "900", font), color.accent),
      FillText(ToUpper(u.caption), x + CardWidth / 2, LabelY, FontStr(24, "bold", font), color.secondary) ]
  }

  /** The faint outline the white theme adds around a card. */
  function CardBorder(i: int, color: ColorPreset): seq<DrawCmd> {
    if color.name == "White" then [StrokePath(CardBox(i), "rgba(0,0,0,0.05)", 2)] else []
  }

  /** The commands of one card per unit, the `i`-th at the `i`-th offset. */
  function CardList(units: seq<UnitReading>, color: ColorPreset, font: FontPreset): seq<seq<DrawCmd>> {
    seq(|units|, i requires 0 <= i < |units| => CardCommands(units[i], i, color, font))
  }

  /** Groups of commands issued one group after another. */
  function Concat(groups: seq<seq<DrawCmd>>): seq<DrawCmd> {
    if groups == [] then [] else Concat(groups[..|groups| - 1]) + groups[|groups| - 1]
  }

  /** The background, the title and the subtitle. */
  function Heading(e: CountdownEvent, color: ColorPreset, font: FontPreset): seq<DrawCmd> {
    [ FillRect(0, 0, CanvasWidth, CanvasHeight, color.bg),
      FillText(TitleText(e), CenterX, 180, FontStr(72, "900", font), color.text),
      FillText(DescriptionText(e), CenterX, 250, FontStr(32, "500", font), color.secondary) ]
  }

  /** What replaces the cards once the deadline has passed. */
  function Banner(color: ColorPreset, font: FontPreset): seq<DrawCmd> {
    [FillText("COMPLETED", CenterX, 480, FontStr(100, "900", font), color.text)]
  }

  /** The target date and the brand line; `targetLabel` is the
      locale-formatted target instant. */
  function Footer(targetLabel: string, color: ColorPreset, font: FontPreset): seq<DrawCmd> {
    [ FillText("TARGET: " + targetLabel, CenterX, 680, FontStr(26, "bold", font), color.secondary),
      FillText("TIMER BD", CenterX, 740, FontStr(32, "900", font), color.accent) ]
  }

  /** The completed banner once the reading has expired, the unit cards
      before. */
  function Middle(t: TimeRemaining, color: ColorPreset, font: FontPreset): seq<DrawCmd> {
    if IsExpired(t) then Banner(color, font) else Concat(CardList(Units(t), color, font))
  }

  /** The whole exported picture: heading, then either the completed banner
      or the four unit cards, then the footer. */
  function ExportScene(e: CountdownEvent, t: TimeRemaining, color: ColorPreset, font: FontPreset,
                       targetLabel: string): seq<DrawCmd>
  {
    Heading(e, color, font) + Middle(t, color, font) + Footer(targetLabel, color, font)
  }

  /** Extending a prefix of the groups by the next group. */
  lemma ConcatSnoc(groups: seq<seq<DrawCmd>>, i: int)
    requires 0 <= i < |groups|
    ensures Concat(groups[..i + 1]) == Concat(groups[..i]) + groups[i]
  {
    assert groups[..i + 1][..i] == groups[..i];
  }

  /** The body of the `units.forEach` callback: the card of the `i`-th
      unit, its box traced by `roundRect` (twice on the white theme, once
      to fill and once to outline). */
  method DrawCard(u: UnitReading, i: int, color: ColorPreset, font: FontPreset)
    returns (card: seq<DrawCmd>)
    ensures card == CardCommands(u, i, color, font)
  {
    var x := CardX(i);
    var y := StartY;
    var box := RoundRect(x as real, y as real, CardWidth as real, CardHeight as real, CornerRadius as real);
    assert box == CardBox(i);
    var border: seq<DrawCmd> := [];
    if color.name == "White" {
      var outline := RoundRect(x as real, y as real, CardWidth as real, CardHeight as real, CornerRadius as real);
      border := [StrokePath(outline, "rgba(0,0,0,0.05)", 2)];
      assert border == CardBorder(i, color);
    } else {
      assert border == CardBorder(i, color);
    }
    var value := FillText(FormatTimeNumber(u.value), x + CardWidth / 2, y + 130,
                          FontStr(96, "900", font), color.accent);
    var caption := FillText(ToUpper(u.caption), x + CardWidth / 2, y + 185,
                            FontStr(24, "bold", font), color.secondary);
    card := [FillPath(box, color.cardBg)] + border + [value, caption];
  }

  /** The `units.forEach` loop of the export: one card per unit, in unit
      order. */
  method DrawUnitCards(units: seq<UnitReading>, color: ColorPreset, font: FontPreset)
    returns (cmds: seq<DrawCmd>)
    ensures cmds == Concat(CardList(units, color, font))
  {
    ghost var cards := CardList(units, color, font);
    cmds := [];
    var i := 0;
    while i < |units|
      invariant 0 <= i <= |units|
      invariant cmds == Concat(cards[..i])
    {
      var card := DrawCard(units[i], i, color, font);
      assert card == cards[i];
      ConcatSnoc(cards, i);
      cmds := cmds + card;
      i := i + 1;
    }
    assert cards[..|units|] == cards;
  }

  /** The drawing part of `downloadAsJpg`, issuing its canvas calls in
      order. */
  method RenderExport(e: CountdownEvent, t: TimeRemaining, color: ColorPreset, font: FontPreset,
                      targetLabel: string) returns (cmds: seq<DrawCmd>)
    ensures cmds == ExportScene(e, t, color, font, targetLabel)
  {
    var title := if e.title == "" then "Untitled Event" else e.title;
    var description := if e.description.Some? && e.description.value != "" then e.description.value
                       else "Deadline Countdown";
    cmds := [ FillRect(0, 0, CanvasWidth, CanvasHeight, color.bg),
              FillText(title, CanvasWidth / 2, 180, FontStr(72, "900", font), color.text),
              FillText(description, CanvasWidth / 2, 250, FontStr(32, "500", font), color.secondary) ];
    if t.totalMs <= 0 {
      cmds := cmds + [FillText("COMPLETED", CanvasWidth / 2, 480, FontStr(100, "900", font), color.text)];
    } else {
      var cards := DrawUnitCards(Units(t), color, font);
      cmds := cmds + cards;
    }
    cmds := cmds + [ FillText("TARGET: " + targetLabel, CanvasWidth / 2, 680, FontStr(26, "bold", font),
                              color.secondary),
                     FillText("TIMER BD", CanvasWidth / 2, 740, FontStr(32, "900", font), color.accent) ];
  }

  // ---------------------------------------------------------------------
  // What the picture shows
  // ---------------------------------------------------------------------

  /** The text a command draws on the line at height `y`, if any. */
  function TextOf(c: DrawCmd, y: int): seq<string> {
    if c.FillText? && c.y == y then [c.text] else []
  }

  /** The path a command fills, if any. */
  function PathOf(c: DrawCmd): seq<seq<PathOp>> {
    if c.FillPath? then [c.path] else []
  }

  /** The texts drawn on the line at height `y`, in drawing order. */
  function TextsAt(cmds: seq<DrawCmd>, y: int): seq<string> {
    if cmds == [] then [] else TextOf(cmds[0], y) + TextsAt(cmds[1..], y)
  }

  /** The filled paths, that is the card boxes, in drawing order. */
  function FilledPaths(cmds: seq<DrawCmd>): seq<seq<PathOp>> {
    if cmds == [] then [] else PathOf(cmds[0]) + FilledPaths(cmds[1..])
  }

  /** The texts of two command lists drawn one after the other. */
  lemma {:induction false} TextsSplit(a: seq<DrawCmd>, b: seq<DrawCmd>, y: int)
    ensures TextsAt(a + b, y) == TextsAt(a, y) + TextsAt(b, y)
    decreases |a|
  {
    if a == [] {
      assert a + b == b;
    } else {
      assert (a + b)[0] == a[0];
      assert (a + b)[1..] == a[1..] + b;
      TextsSplit(a[1..], b, y);
    }
  }

  /** The filled paths of two command lists drawn one after the other. */
  lemma {:induction false} PathsSplit(a: seq<DrawCmd>, b: seq<DrawCmd>)
    ensures FilledPaths(a + b) == FilledPaths(a) + FilledPaths(b)
    decreases |a|
  {
    if a == [] {
      assert a + b == b;
    } else {
      assert (a + b)[0] == a[0];
      assert (a + b)[1..] == a[1..] + b;
      PathsSplit(a[1..], b);
    }
  }

  lemma ProjectionsSplit(a: seq<DrawCmd>, b: seq<DrawCmd>, y: int)
    ensures TextsAt(a + b, y) == TextsAt(a, y) + TextsAt(b, y)
    ensures FilledPaths(a + b) == FilledPaths(a) + FilledPaths(b)
  {
    TextsSplit(a, b, y);
    PathsSplit(a, b);
  }

  lemma ProjectOne(c: DrawCmd, y: int)
    ensures TextsAt([c], y) == TextOf(c, y) && FilledPaths([c]) == PathOf(c)
  {
    assert [c][1..] == [];
  }

  lemma ProjectTwo(c: DrawCmd, d: DrawCmd, y: int)
    ensures TextsAt([c, d], y) == TextOf(c, y) + TextOf(d, y)
    ensures FilledPaths([c, d]) == PathOf(c) + PathOf(d)
  {
    assert [c, d] == [c] + [d];
    ProjectionsSplit([c], [d], y);
    ProjectOne(c, y);
    ProjectOne(d, y);
  }

  lemma HeadingShows(e: CountdownEvent, color: ColorPreset, font: FontPreset, y: int)
    ensures TextsAt(Heading(e, color, font), y)
         == (if y == 180 then [TitleText(e)] else []) + (if y == 250 then [DescriptionText(e)] else [])
    ensures FilledPaths(Heading(e, color, font)) == []
  {
    var h := Heading(e, color, font);
    assert h == [h[0]] + [h[1], h[2]];
    ProjectionsSplit([h[0]], [h[1], h[2]], y);
    ProjectOne(h[0], y);
    ProjectTwo(h[1], h[2], y);
  }

  lemma FooterShows(targetLabel: string, color: ColorPreset, font: FontPreset, y: int)
    ensures TextsAt(Footer(targetLabel, color, font), y)
         == (if y == 680 then ["TARGET: " + targetLabel] else []) + (if y == 740 then ["TIMER BD"] else [])
    ensures FilledPaths(Footer(targetLabel, color, font)) == []
  {
    var f := Footer(targetLabel, color, font);
    ProjectTwo(f[0], f[1], y);
  }

  /** A card shows its value on the value line, its label on the label
      line, and nothing elsewhere. */
  lemma CardTextsShown(u: UnitReading, i: int, color: ColorPreset, font: FontPreset, y: int)
    ensures TextsAt(CardCommands(u, i, color, font), y)
         == (if y == ValueY then [FormatTimeNumber(u.value)] else [])
          + (if y == LabelY then [ToUpper(u.caption)] else [])
  {
    var box := [FillPath(CardBox(i), color.cardBg)];
    var border := CardBorder(i, color);
    var texts := CardTexts(u, i, font, color);
    ProjectionsSplit(box, border, y);
    ProjectionsSplit(box + border, texts, y);
    ProjectOne(box[0], y);
    if border != [] {
      ProjectOne(border[0], y);
    }
    ProjectTwo(texts[0], texts[1], y);
  }

  /** A card fills exactly one path: its box. */
  lemma CardBoxShown(u: UnitReading, i: int, color: ColorPreset, font: FontPreset)
    ensures FilledPaths(CardCommands(u, i, color, font)) == [CardBox(i)]
  {
    var box := [FillPath(CardBox(i), color.cardBg)];
    var border := CardBorder(i, color);
    var texts := CardTexts(u, i, font, color);
    ProjectionsSplit(box, border, 0);
    ProjectionsSplit(box + border, texts, 0);
    ProjectOne(box[0], 0);
    if border != [] {
      ProjectOne(border[0], 0);
    }
    ProjectTwo(texts[0], texts[1], 0);
  }

  lemma {:induction false} ConcatShowsOnePerGroup(groups: seq<seq<DrawCmd>>, y: int, texts: seq<string>)
    requires |texts| == |groups|
    requires forall j {:trigger TextsAt(groups[j], y)} :: 0 <= j < |groups| ==> TextsAt(groups[j], y) == [texts[j]]
    ensures TextsAt(Concat(groups), y) == texts
    decreases |groups|
  {
    if groups != [] {
      var n := |groups| - 1;
      var init, before := groups[..n], texts[..n];
      forall j | 0 <= j < n
        ensures TextsAt(init[j], y) == [before[j]]
      {
        assert init[j] == groups[j] && before[j] == texts[j];
      }
      ConcatShowsOnePerGroup(init, y, before);
      assert Concat(groups) == Concat(init) + groups[n];
      TextsSplit(Concat(init), groups[n], y);
      assert TextsAt(groups[n], y) == [texts[n]];
      assert texts == before + [texts[n]];
    }
  }

  lemma {:induction false} ConcatShowsNone(groups: seq<seq<DrawCmd>>, y: int)
    requires forall j {:trigger TextsAt(groups[j], y)} :: 0 <= j < |groups| ==> TextsAt(groups[j], y) == []
    ensures TextsAt(Concat(groups), y) == []
    decreases |groups|
  {
    if groups != [] {
      var n := |groups| - 1;
      var init := groups[..n];
      assert forall j :: 0 <= j < n ==> init[j] == groups[j];
      ConcatShowsNone(init, y);
      assert Concat(groups) == Concat(init) + groups[n];
      TextsSplit(Concat(init), groups[n], y);
    }
  }

  lemma {:induction false} ConcatFillsOnePerGroup(groups: seq<seq<DrawCmd>>, paths: seq<seq<PathOp>>)
    requires |paths| == |groups|
    requires forall j {:trigger FilledPaths(groups[j])} :: 0 <= j < |groups| ==> FilledPaths(groups[j]) == [paths[j]]
    ensures FilledPaths(Concat(groups)) == paths
    decreases |groups|
  {
    if groups != [] {
      var n := |groups| - 1;
      var init, before := groups[..n], paths[..n];
      forall j | 0 <= j < n
        ensures FilledPaths(init[j]) == [before[j]]
      {
        assert init[j] == groups[j] && before[j] == paths[j];
      }
      ConcatFillsOnePerGroup(init, before);
      assert Concat(groups) == Concat(init) + groups[n];
      PathsSplit(Concat(init), groups[n]);
      assert FilledPaths(groups[n]) == [paths[n]];
      assert paths == before + [paths[n]];
    }
  }

  /** The cards show the units' zero-padded values on the value line, in
      unit order. */
  lemma CardValuesShown(units: seq<UnitReading>, color: ColorPreset, font: FontPreset)
    ensures TextsAt(Concat(CardList(units, color, font)), ValueY)
         == seq(|units|, j requires 0 <= j < |units| => FormatTimeNumber(units[j].value))
  {
    var cards := CardList(units, color, font);
    var texts := seq(|units|, j requires 0 <= j < |units| => FormatTimeNumber(units[j].value));
    forall j | 0 <= j < |cards|
      ensures TextsAt(cards[j], ValueY) == [texts[j]]
    {
      CardTextsShown(units[j], j, color, font, ValueY);
    }
    ConcatShowsOnePerGroup(cards, ValueY, texts);
  }

  /** The cards show the units' upper-cased labels on the label line, in
      unit order. */
  lemma CardLabelsShown(units: seq<UnitReading>, color: ColorPreset, font: FontPreset)
    ensures TextsAt(Concat(CardList(units, color, font)), LabelY)
         == seq(|units|, j requires 0 <= j < |units| => ToUpper(units[j].caption))
  {
    var cards := CardList(units, color, font);
    var texts := seq(|units|, j requires 0 <= j < |units| => ToUpper(units[j].caption));
    forall j | 0 <= j < |cards|
      ensures TextsAt(cards[j], LabelY) == [texts[j]]
    {
      CardTextsShown(units[j], j, color, font, LabelY);
    }
    ConcatShowsOnePerGroup(cards, LabelY, texts);
  }

  /** The cards draw no text off the value and label lines. */
  lemma CardsQuietElsewhere(units: seq<UnitReading>, color: ColorPreset, font: FontPreset, y: int)
    requires y != ValueY && y != LabelY
    ensures TextsAt(Concat(CardList(units, color, font)), y) == []
  {
    var cards := CardList(units, color, font);
    forall j | 0 <= j < |cards|
      ensures TextsAt(cards[j], y) == []
    {
      CardTextsShown(units[j], j, color, font, y);
    }
    ConcatShowsNone(cards, y);
  }

  /** The cards fill one box per unit, left to right. */
  lemma CardBoxesShown(units: seq<UnitReading>, color: ColorPreset, font: FontPreset)
    ensures FilledPaths(Concat(CardList(units, color, font)))
         == seq(|units|, j requires 0 <= j < |units| => CardBox(j))
  {
    var cards := CardList(units, color, font);
    var boxes := seq(|units|, j requires 0 <= j < |units| => CardBox(j));
    forall j | 0 <= j < |cards|
      ensures FilledPaths(cards[j]) == [boxes[j]]
    {
      CardBoxShown(units[j], j, color, font);
    }
    ConcatFillsOnePerGroup(cards, boxes);
  }

  lemma LabelsUpperCased()
    ensures ToUpper("Days") == "DAYS" && ToUpper("Hours") == "HOURS"
    ensures ToUpper("Mins") == "MINS" && ToUpper("Secs") == "SECS"
  {
    var d, h, m, c := ToUpper("Days"), ToUpper("Hours"), ToUpper("Mins"), ToUpper("Secs");
    assert d[0] == 'D' && d[1] == 'A' && d[2] == 'Y' && d[3] == 'S';
    assert h[0] == 'H' && h[1] == 'O' && h[2] == 'U' && h[3] == 'R' && h[4] == 'S';
    assert m[0] == 'M' && m[1] == 'I' && m[2] == 'N' && m[3] == 'S';
    assert c[0] == 'S' && c[1] == 'E' && c[2] == 'C' && c[3] == 'S';
  }

  /** The picture's projections are those of its three parts, in order. */
  lemma SceneSplits(e: CountdownEvent, t: TimeRemaining, color: ColorPreset, font: FontPreset,
                    targetLabel: string, y: int)
    ensures TextsAt(ExportScene(e, t, color, font, targetLabel), y)
         == TextsAt(Heading(e, color, font), y) + TextsAt(Middle(t, color, font), y)
          + TextsAt(Footer(targetLabel, color, font), y)
    ensures FilledPaths(ExportScene(e, t, color, font, targetLabel))
         == FilledPaths(Heading(e, color, font)) + FilledPaths(Middle(t, color, font))
          + FilledPaths(Footer(targetLabel, color, font))
  {
    var head, middle, foot := Heading(e, color, font), Middle(t, color, font), Footer(targetLabel, color, font);
    ProjectionsSplit(head, middle, y);
    ProjectionsSplit(head + middle, foot, y);
  }

  /** Neither the banner nor the cards draw on the heading or footer
      lines. */
  lemma MiddleQuiet(t: TimeRemaining, color: ColorPreset, font: FontPreset, y: int)
    requires y != ValueY && y != LabelY && y != 480
    ensures TextsAt(Middle(t, color, font), y) == []
  {
    if IsExpired(t) {
      ProjectOne(Banner(color, font)[0], y);
    } else {
      CardsQuietElsewhere(Units(t), color, font, y);
    }
  }

  /** The text on a heading or footer line of the picture. */
  lemma SceneLine(e: CountdownEvent, t: TimeRemaining, color: ColorPreset, font: FontPreset,
                  targetLabel: string, y: int)
    requires y != ValueY && y != LabelY && y != 480
    ensures TextsAt(ExportScene(e, t, color, font, targetLabel), y)
         == (if y == 180 then [TitleText(e)] else []) + (if y == 250 then [DescriptionText(e)] else [])
          + (if y == 680 then ["TARGET: " + targetLabel] else []) + (if y == 740 then ["TIMER BD"] else [])
  {
    SceneSplits(e, t, color, font, targetLabel, y);
    HeadingShows(e, color, font, y);
    FooterShows(targetLabel, color, font, y);
    MiddleQuiet(t, color, font, y);
  }

  /** The title and subtitle are drawn once each, with their stand-ins,
      and the footer shows the target date and the brand line, whatever
      the reading. */
  lemma HeadingExport(e: CountdownEvent, t: TimeRemaining, color: ColorPreset, font: FontPreset,
                      targetLabel: string)
    ensures TextsAt(ExportScene(e, t, color, font, targetLabel), 180) == [TitleText(e)]
    ensures TextsAt(ExportScene(e, t, color, font, targetLabel), 250) == [DescriptionText(e)]
    ensures TextsAt(ExportScene(e, t, color, font, targetLabel), 680) == ["TARGET: " + targetLabel]
    ensures TextsAt(ExportScene(e, t, color, font, targetLabel), 740) == ["TIMER BD"]
  {
    SceneLine(e, t, color, font, targetLabel, 180);
    SceneLine(e, t, color, font, targetLabel, 250);
    SceneLine(e, t, color, font, targetLabel, 680);
    SceneLine(e, t, color, font, targetLabel, 740);
  }

  /** What the card area of the picture shows on line `y`. */
  lemma MiddleLine(e: CountdownEvent, t: TimeRemaining, color: ColorPreset, font: FontPreset,
                   targetLabel: string, y: int)
    requires y == ValueY || y == LabelY || y == 480
    ensures TextsAt(ExportScene(e, t, color, font, targetLabel), y) == TextsAt(Middle(t, color, font), y)
  {
    SceneSplits(e, t, color, font, targetLabel, y);
    HeadingShows(e, color, font, y);
    FooterShows(targetLabel, color, font, y);
  }

  /** An expired reading exports the completed banner and no unit cards. */
  lemma ExpiredExport(e: CountdownEvent, t: TimeRemaining, color: ColorPreset, font: FontPreset,
                      targetLabel: string)
    requires IsExpired(t)
    ensures TextsAt(ExportScene(e, t, color, font, targetLabel), 480) == ["COMPLETED"]
    ensures FilledPaths(ExportScene(e, t, color, font, targetLabel)) == []
    ensures TextsAt(ExportScene(e, t, color, font, targetLabel), ValueY) == []
    ensures TextsAt(ExportScene(e, t, color, font, targetLabel), LabelY) == []
  {
    var banner := Banner(color, font);
    MiddleLine(e, t, color, font, targetLabel, 480);
    MiddleLine(e, t, color, font, targetLabel, ValueY);
    MiddleLine(e, t, color, font, targetLabel, LabelY);
    SceneSplits(e, t, color, font, targetLabel, 0);
    HeadingShows(e, color, font, 0);
    FooterShows(targetLabel, color, font, 0);
    ProjectOne(banner[0], 480);
    ProjectOne(banner[0], ValueY);
    ProjectOne(banner[0], LabelY);
  }

  /** A sequence of four given elements. */
  lemma SeqOfFour<T>(s: seq<T>, a: T, b: T, c: T, d: T)
    requires |s| == 4 && s[0] == a && s[1] == b && s[2] == c && s[3] == d
    ensures s == [a, b, c, d]
  {
  }

  /** Four cards fill their four boxes, left to right. */
  lemma FourBoxes(units: seq<UnitReading>, color: ColorPreset, font: FontPreset)
    requires |units| == 4
    ensures FilledPaths(Concat(CardList(units, color, font))) == [CardBox(0), CardBox(1), CardBox(2), CardBox(3)]
  {
    CardBoxesShown(units, color, font);
    var boxes := seq(|units|, j requires 0 <= j < |units| => CardBox(j));
    SeqOfFour(boxes, boxes[0], boxes[1], boxes[2], boxes[3]);
  }

  /** Four cards show their four values, in unit order. */
  lemma FourValues(units: seq<UnitReading>, color: ColorPreset, font: FontPreset)
    requires |units| == 4
    ensures TextsAt(Concat(CardList(units, color, font)), ValueY)
         == [FormatTimeNumber(units[0].value), FormatTimeNumber(units[1].value),
             FormatTimeNumber(units[2].value), FormatTimeNumber(units[3].value)]
  {
    CardValuesShown(units, color, font);
    var values := seq(|units|, j requires 0 <= j < |units| => FormatTimeNumber(units[j].value));
    SeqOfFour(values, values[0], values[1], values[2], values[3]);
  }

  /** Four cards show their four labels, upper-cased, in unit order. */
  lemma FourLabels(units: seq<UnitReading>, color: ColorPreset, font: FontPreset)
    requires |units| == 4
    ensures TextsAt(Concat(CardList(units, color, font)), LabelY)
         == [ToUpper(units[0].caption), ToUpper(units[1].caption),
             ToUpper(units[2].caption), ToUpper(units[3].caption)]
  {
    CardLabelsShown(units, color, font);
    var labels := seq(|units|, j requires 0 <= j < |units| => ToUpper(units[j].caption));
    SeqOfFour(labels, labels[0], labels[1], labels[2], labels[3]);
  }

  /** A running reading exports exactly four cards, placed left to right. */
  lemma RunningBoxes(e: CountdownEvent, t: TimeRemaining, color: ColorPreset, font: FontPreset,
                     targetLabel: string)
    requires !IsExpired(t)
    ensures FilledPaths(ExportScene(e, t, color, font, targetLabel))
         == [CardBox(0), CardBox(1), CardBox(2), CardBox(3)]
  {
    SceneSplits(e, t, color, font, targetLabel, 0);
    HeadingShows(e, color, font, 0);
    FooterShows(targetLabel, color, font, 0);
    FourBoxes(Units(t), color, font);
  }

  /** A running reading shows days, hours, minutes and seconds, zero-padded,
      in that order. */
  lemma RunningValues(e: CountdownEvent, t: TimeRemaining, color: ColorPreset, font: FontPreset,
                      targetLabel: string)
    requires !IsExpired(t)
    ensures TextsAt(ExportScene(e, t, color, font, targetLabel), ValueY)
         == [FormatTimeNumber(t.days), FormatTimeNumber(t.hours),
             FormatTimeNumber(t.minutes), FormatTimeNumber(t.seconds)]
  {
    MiddleLine(e, t, color, font, targetLabel, ValueY);
    FourValues(Units(t), color, font);
  }

  /** A running reading labels its cards DAYS, HOURS, MINS and SECS and
      draws no completed banner. */
  lemma RunningLabels(e: CountdownEvent, t: TimeRemaining, color: ColorPreset, font: FontPreset,
                      targetLabel: string)
    requires !IsExpired(t)
    ensures TextsAt(ExportScene(e, t, color, font, targetLabel), LabelY) == ["DAYS", "HOURS", "MINS", "SECS"]
    ensures TextsAt(ExportScene(e, t, color, font, targetLabel), 480) == []
  {
    MiddleLine(e, t, color, font, targetLabel, LabelY);
    MiddleLine(e, t, color, font, targetLabel, 480);
    FourLabels(Units(t), color, font);
    LabelsUpperCased();
    CardsQuietElsewhere(Units(t), color, font, 480);
  }

  // ---------------------------------------------------------------------
  // Download file name
  // ---------------------------------------------------------------------

  /** A character matched by `\s` in a JavaScript regular expression. */
  predicate IsJsWhitespace(c: char) {
    var k := c as int;
    k == 0x09 || k == 0x0A || k == 0x0B || k == 0x0C || k == 0x0D || k == 0x20
    || k == 0xA0 || k == 0x1680 || (0x2000 <= k <= 0x200A) || k == 0x2028 || k == 0x2029
    || k == 0x202F || k == 0x205F || k == 0x3000 || k == 0xFEFF
  }

  predicate NoWhitespace(s: string) {
    forall i :: 0 <= i < |s| ==> !IsJsWhitespace(s[i])
  }

  predicate AllWhitespace(s: string) {
    forall i :: 0 <= i < |s| ==> IsJsWhitespace(s[i])
  }

  lemma JoinNoWhitespace(a: string, b: string)
    requires NoWhitespace(a) && NoWhitespace(b)
    ensures NoWhitespace(a + b)
  {
    forall i | 0 <= i < |a + b|
      ensures !IsJsWhitespace((a + b)[i])
    {
      if i < |a| {
        assert (a + b)[i] == a[i];
      } else {
        assert (a + b)[i] == b[i - |a|];
      }
    }
  }

  /** `s.replace(/\s+/g, '_')`: each maximal run of whitespace becomes one
      underscore. */
  function CollapseWhitespace(s: string): (r: string)
    ensures |r| <= |s|
    ensures r == [] <==> s == []
    ensures NoWhitespace(r)
  {
    CollapseFrom(s, false)
  }

  /** The replacement scanning `s`, where `inRun` says whether the
      character before `s` was whitespace already replaced. */
  function CollapseFrom(s: string, inRun: bool): (r: string)
    ensures |r| <= |s|
    ensures s == [] ==> r == []
    ensures !inRun && s != [] ==> r != []
    ensures NoWhitespace(r)
  {
    if s == [] then []
    else if IsJsWhitespace(s[0]) then
      var rest := CollapseFrom(s[1..], true);
      if inRun then rest
      else
        JoinNoWhitespace("_", rest);
        "_" + rest
    else
      var rest := CollapseFrom(s[1..], false);
      JoinNoWhitespace([s[0]], rest);
      [s[0]] + rest
  }

  /** Text without whitespace is left as it is. */
  lemma {:induction false} CollapseKeepsWord(s: string, inRun: bool)
    requires NoWhitespace(s)
    ensures CollapseFrom(s, inRun) == s
    decreases |s|
  {
    if s != [] {
      CollapseKeepsWord(s[1..], false);
      assert s == [s[0]] + s[1..];
    }
  }

  /** A whitespace run that continues a replaced run adds nothing. */
  lemma {:induction false} RunSkipped(w: string, b: string)
    requires AllWhitespace(w)
    requires b == [] || !IsJsWhitespace(b[0])
    ensures CollapseFrom(w + b, true) == CollapseFrom(b, false)
    decreases |w|
  {
    if w != [] {
      assert (w + b)[0] == w[0];
      assert (w + b)[1..] == w[1..] + b;
      RunSkipped(w[1..], b);
    } else {
      assert w + b == b;
    }
  }

  /** A word followed by a whitespace run: the word is kept, the run becomes
      one underscore, and the rest is replaced on its own. Together with
      CollapseKeepsWord this determines the result on every string. */
  lemma {:induction false} CollapseWordThenRun(a: string, w: string, b: string)
    requires NoWhitespace(a)
    requires w != [] && AllWhitespace(w)
    requires b == [] || !IsJsWhitespace(b[0])
    ensures CollapseWhitespace(a + w + b) == a + "_" + CollapseWhitespace(b)
    decreases |a|
  {
    if a == [] {
      assert a + w + b == w + b;
      assert (w + b)[0] == w[0];
      assert (w + b)[1..] == w[1..] + b;
      RunSkipped(w[1..], b);
    } else {
      assert (a + w + b)[0] == a[0];
      assert (a + w + b)[1..] == a[1..] + w + b;
      CollapseWordThenRun(a[1..], w, b);
      assert a == [a[0]] + a[1..];
    }
  }

  /** A title of whitespace only becomes a single underscore. */
  lemma BlankTitleCollapses(s: string)
    requires s != [] && AllWhitespace(s)
    ensures CollapseWhitespace(s) == "_"
  {
    var empty: string := [];
    assert empty + s + empty == s;
    assert CollapseWhitespace(empty) == [];
    CollapseWordThenRun(empty, s, empty);
  }

  /** The name of the downloaded file. */
  function DownloadName(title: string): (name: string)
    ensures |name| >= 4 && name[|name| - 4..] == ".jpg"
    ensures title == [] ==> name == "deadline.jpg"
    ensures title != [] ==> name == CollapseWhitespace(title) + ".jpg"
    ensures NoWhitespace(name)
  {
    var collapsed := CollapseWhitespace(title);
    (if collapsed == "" then "deadline" else collapsed) + ".jpg"
  }

  // ---------------------------------------------------------------------
  // The card component's state
  // ---------------------------------------------------------------------

  /** The file offered for download. */
  datatype Download = Download(
    filename: string,
    width: int,
    height: int,
    mimeType: string,
    quality: real,
    scene: seq<DrawCmd>)

  /** The state of one card: the reading refreshed by the one-second timer,
      whether the export popover is open, and the chosen style. */
  class Card {
    const event: CountdownEvent
    const targetMs: int
    var timeLeft: TimeRemaining
    var showSettings: bool
    var selectedColor: ColorPreset
    var selectedFont: FontPreset

    /** Mounting: the first reading, the popover closed, the first presets.
        `targetMs` is the event's time as an instant, `nowMs` the clock. */
    constructor (event: CountdownEvent, targetMs: int, nowMs: int)
      ensures this.event == event && this.targetMs == targetMs
      ensures timeLeft == CalculateTimeRemaining(targetMs, nowMs)
      ensures !showSettings
      ensures selectedColor == ColorPresets[0] && selectedFont == Fonts[0]
    {
      this.event := event;
      this.targetMs := targetMs;
      timeLeft := CalculateTimeRemaining(targetMs, nowMs);
      showSettings := false;
      selectedColor := ColorPresets[0];
      selectedFont := Fonts[0];
    }

    /** One tick of the timer. */
    method Tick(nowMs: int)
      modifies this`timeLeft
      ensures timeLeft == CalculateTimeRemaining(targetMs, nowMs)
    {
      timeLeft := CalculateTimeRemaining(targetMs, nowMs);
    }

    /** The download button flips the popover. */
    method ToggleSettings()
      modifies this`showSettings
      ensures showSettings == !old(showSettings)
    {
      showSettings := !showSettings;
    }

    /** A mouse press anywhere on the page. The listener exists only while
        the popover is open, and closes it when the press falls outside the
        settings area, which holds the download button and its popover. */
    method MouseDown(insideSettings: bool)
      modifies this`showSettings
      ensures showSettings == (old(showSettings) && insideSettings)
    {
      if showSettings && !insideSettings {
        showSettings := false;
      }
    }

    method SelectColor(p: ColorPreset)
      requires p in ColorPresets
      modifies this`selectedColor
      ensures selectedColor == p
    {
      selectedColor := p;
    }

    method SelectFont(f: FontPreset)
      requires f in Fonts
      modifies this`selectedFont
      ensures selectedFont == f
    {
      selectedFont := f;
    }

    /** `downloadAsJpg`. Without a 2-D context it returns at once, leaving
        the popover as it was; otherwise it draws the picture, offers it as
        a 1200 by 800 JPEG at quality 0.95, and closes the popover.
        `targetLabel` is the locale-formatted target instant. */
    method DownloadAsJpg(hasContext: bool, targetLabel: string) returns (download: Option<Download>)
      modifies this`showSettings
      ensures !hasContext ==> download == None && showSettings == old(showSettings)
      ensures hasContext ==> !showSettings && download == Some(Download(
        DownloadName(event.title), CanvasWidth, CanvasHeight, "image/jpeg", 0.95,
        ExportScene(event, timeLeft, selectedColor, selectedFont, targetLabel)))
    {
      if !hasContext {
        return None;
      }
      var scene := RenderExport(event, timeLeft, selectedColor, selectedFont, targetLabel);
      var collapsed := CollapseWhitespace(event.title);
      var filename := (if collapsed == "" then "deadline" else collapsed) + ".jpg";
      download := Some(Download(filename, 1200, 800, "image/jpeg", 0.95, scene));
      showSettings := false;
    }
  }
}
