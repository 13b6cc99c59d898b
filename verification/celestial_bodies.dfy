/**
 * The body registry of js/celestialBodies.js: a constant table of descriptive
 * records, the lookup `getCelestialInfo`, and `updateInfoPanel`, which writes
 * an ordered selection of lines into the info panel.
 */
module CelestialBodies {
  import opened Base

  /** One record of `celestialData`; a numeric field is `None` where the record lacks it. */
  datatype BodyRecord = BodyRecord(
    name: string,
    description: string,
    diameter: Option<real>,
    distanceFromSun: Option<real>,
    orbitalPeriod: Option<real>,
    rotationPeriod: Option<real>,
    surfaceTemp: Option<real>,
    info: string)

  /** The `celestialData` table (js/celestialBodies.js:4-90). */
  function CelestialData(): map<string, BodyRecord> {
    map[
      "sun" := BodyRecord("太阳", "太阳系的中心天体，一颗G型主序星。",
        Some(1392700.0), None, None, Some(25.05), Some(5778.0),
        "太阳占据了太阳系总质量的99.86%，主要由氢（约73%）和氦（约25%）组成。太阳通过核聚变发出光和热，为地球上的生命提供能量。"),
      "mercury" := BodyRecord("水星", "太阳系中最小的行星，也是最接近太阳的行星。",
        Some(4879.0), Some(57.9), Some(88.0), Some(58.65), None,
        "水星没有大气层，表面满是陨石坑，温度变化极大，从白天的430°C到夜晚的-180°C。"),
      "venus" := BodyRecord("金星", "太阳系中第二颗行星，也被称为'晨星'或'昏星'。",
        Some(12104.0), Some(108.2), Some(225.0), Some(-243.0), None,
        "金星被厚厚的二氧化碳大气层包围，导致强烈的温室效应，表面温度高达465°C，是太阳系中最热的行星。"),
      "earth" := BodyRecord("地球", "太阳系中第三颗行星，是目前已知唯一孕育生命的天体。",
        Some(12742.0), Some(149.6), Some(365.25), Some(1.0), None,
        "地球的大气层、液态水和磁场为生命提供了适宜的环境。地球有一颗相对较大的卫星：月球。"),
      "mars" := BodyRecord("火星", "太阳系中第四颗行星，被称为'红色星球'。",
        Some(6779.0), Some(227.9), Some(687.0), Some(1.03), None,
        "火星表面有许多特征，包括奥林匹斯山（太阳系最大的火山）和瓦利斯·马利纳利峡谷。有证据表明，火星上曾经有液态水。"),
      "jupiter" := BodyRecord("木星", "太阳系中最大的行星，一颗气态巨行星。",
        Some(139820.0), Some(778.5), Some(4333.0), Some(0.41), None,
        "木星主要由氢和氦组成，有一个著名的大红斑（一个巨大的风暴），拥有79颗已知的卫星。"),
      "saturn" := BodyRecord("土星", "太阳系中第二大行星，以其美丽的环系闻名。",
        Some(116460.0), Some(1434.0), Some(10759.0), Some(0.45), None,
        "土星的环系主要由冰粒和岩石碎片组成，直径达282000公里，但厚度只有数百米。土星有82颗已知的卫星。"),
      "uranus" := BodyRecord("天王星", "太阳系中第七颗行星，一颗冰巨行星。",
        Some(50724.0), Some(2871.0), Some(30687.0), Some(-0.72), None,
        "天王星是唯一一个'侧卧'旋转的行星，其自转轴几乎与轨道平面平行。它有27颗已知的卫星。"),
      "neptune" := BodyRecord("海王星", "太阳系中最远的行星，也是另一颗冰巨行星。",
        Some(49244.0), Some(4495.0), Some(60190.0), Some(0.67), None,
        "海王星是太阳系中风速最高的行星，最高风速可达2100公里/小时。它有14颗已知的卫星，最大的是海卫一。"),
      "blackhole" := BodyRecord("黑洞", "一个理论上的天体模型，具有极强的引力，连光都无法逃脱。",
        None, None, None, None, None,
        "黑洞周围有一个事件视界，一旦越过这个边界，就不可能再返回。黑洞中心被认为存在奇点，那里的密度和引力趋于无限大。黑洞周围的吸积盘是由被引力吸引的物质形成的，这些物质在坠入黑洞前会发出强烈的电磁辐射。")
    ]
  }

  /**
   * `getCelestialInfo`: the record of a known key, and null for any other name.
   * `data` is the module's `celestialData` object; the managers that call
   * `updateInfoPanel` hold it as a field initialised to `CelestialData()`.
   */
  function GetCelestialInfo(data: map<string, BodyRecord>, name: string): (r: Option<BodyRecord>)
    ensures r.Some? <==> name in data
    ensures r.Some? ==> r.value == data[name]
  {
    if name in data then Some(data[name]) else None
  }

  /** The lines the info panel can show, one constructor per `html +=` of `updateInfoPanel`. */
  datatype Line =
    | Heading(title: string)
    | Description(text: string)
    | Diameter(km: real)
    | Distance(millionKm: real)
    | OrbitalPeriod(days: real)
    | Rotation(days: real, retrograde: bool)
    | Temperature(kelvin: real)
    | Info(text: string)

  /** The position of each kind of line in the emission order. */
  function Rank(l: Line): nat {
    match l
    case Heading(_) => 0
    case Description(_) => 1
    case Diameter(_) => 2
    case Distance(_) => 3
    case OrbitalPeriod(_) => 4
    case Rotation(_, _) => 5
    case Temperature(_) => 6
    case Info(_) => 7
  }

  function Abs(x: real): real { if x < 0.0 then -x else x }

  function DiameterLines(r: BodyRecord): seq<Line> {
    if Truthy(r.diameter) then [Diameter(r.diameter.value)] else []
  }

  function DistanceLines(r: BodyRecord): seq<Line> {
    if Truthy(r.distanceFromSun) then [Distance(r.distanceFromSun.value)] else []
  }

  function OrbitalPeriodLines(r: BodyRecord): seq<Line> {
    if Truthy(r.orbitalPeriod) then [OrbitalPeriod(r.orbitalPeriod.value)] else []
  }

  function RotationLines(r: BodyRecord): seq<Line> {
    if Truthy(r.rotationPeriod)
    then [Rotation(Abs(r.rotationPeriod.value), r.rotationPeriod.value < 0.0)]
    else []
  }

  function TemperatureLines(r: BodyRecord): seq<Line> {
    if Truthy(r.surfaceTemp) then [Temperature(r.surfaceTemp.value)] else []
  }

  /** The lines `updateInfoPanel` emits for a record, in emission order. */
  function InfoLines(r: BodyRecord): seq<Line> {
    [Heading(r.name), Description(r.description)]
    + DiameterLines(r) + DistanceLines(r) + OrbitalPeriodLines(r)
    + RotationLines(r) + TemperatureLines(r)
    + [Info(r.info)]
  }

  /** The HTML of one line; `fmt` stands for `Number.prototype.toLocaleString`. */
  function Render(l: Line, fmt: real -> string): string {
    match l
    case Heading(t) => Wrap(HeadingTag, t)
    case Description(t) => Wrap(DescriptionTag, t)
    case Diameter(v) => Wrap(DiameterTag, fmt(v))
    case Distance(v) => Wrap(DistanceTag, fmt(v))
    case OrbitalPeriod(v) => Wrap(OrbitalPeriodTag, fmt(v))
    case Rotation(v, retro) => Wrap(if retro then RetrogradeTag else ProgradeTag, fmt(v))
    case Temperature(v) => Wrap(TemperatureTag, fmt(v))
    case Info(t) => Wrap(InfoTag, t)
  }

  /** The opening and closing markup around a line's text. */
  datatype Tag = Tag(open: string, close: string)

  function Wrap(tag: Tag, text: string): string { tag.open + text + tag.close }
  const HeadingTag := Tag("<h3>", "</h3>")
  const DescriptionTag := Tag("<p class=\"description\">", "</p>")
  const DiameterTag := Tag("<p>直径: ", " 公里</p>")
  const DistanceTag := Tag("<p>距太阳: ", " 百万公里</p>")
  const OrbitalPeriodTag := Tag("<p>公转周期: ", " 地球日</p>")
  const RetrogradeTag := Tag("<p>自转周期: ", " 地球日 (逆向)</p>")
  const ProgradeTag := Tag("<p>自转周期: ", " 地球日 (顺向)</p>")
  const TemperatureTag := Tag("<p>表面温度: ", " K</p>")
  const InfoTag := Tag("<p class=\"info\">", "</p>")

  /** The HTML of a sequence of lines, in order. */
  function Html(lines: seq<Line>, fmt: real -> string): string
    decreases |lines|
  {
    if lines == [] then "" else Render(lines[0], fmt) + Html(lines[1..], fmt)
  }

  const Placeholder: string := "选择一个天体查看详细信息"

  /** What the panel holds after `updateInfoPanel(name)`. */
  function PanelHtml(data: map<string, BodyRecord>, name: string, fmt: real -> string): string {
    match GetCelestialInfo(data, name)
    case None => Placeholder
    case Some(r) => Html(InfoLines(r), fmt)
  }

  /** The `#planet-info` element; only its `innerHTML` is modelled. */
  class InfoPanel {
    var innerHTML: string

    constructor (html: string)
      ensures innerHTML == html
    {
      innerHTML := html;
    }
  }

  /** `updateInfoPanel`: builds the HTML by successive appends and writes it to the panel. */
  method UpdateInfoPanel(panel: InfoPanel, data: map<string, BodyRecord>, name: string, fmt: real -> string)
    modifies panel
    ensures panel.innerHTML == PanelHtml(data, name, fmt)
  {
    var found := GetCelestialInfo(data, name);
    if found.None? {
      panel.innerHTML := Placeholder;
      return;
    }
    WriteRecord(panel, found.value, fmt);
  }

  /** The found-record branch of `updateInfoPanel`. */
  method WriteRecord(panel: InfoPanel, r: BodyRecord, fmt: real -> string)
    modifies panel
    ensures panel.innerHTML == Html(InfoLines(r), fmt)
  {
    var html := Render(Heading(r.name), fmt);
    html := html + Render(Description(r.description), fmt);
    ghost var h := html;
    if Truthy(r.diameter) {
      html := html + Render(Diameter(r.diameter.value), fmt);
    }
    HtmlOptional(h, html, DiameterLines(r), fmt);
    h := html;
    if Truthy(r.distanceFromSun) {
      html := html + Render(Distance(r.distanceFromSun.value), fmt);
    }
    HtmlOptional(h, html, DistanceLines(r), fmt);
    h := html;
    if Truthy(r.orbitalPeriod) {
      html := html + Render(OrbitalPeriod(r.orbitalPeriod.value), fmt);
    }
    HtmlOptional(h, html, OrbitalPeriodLines(r), fmt);
    h := html;
    if Truthy(r.rotationPeriod) {
      var period := r.rotationPeriod.value;
      html := html + Render(Rotation(Abs(period), period < 0.0), fmt);
    }
    HtmlOptional(h, html, RotationLines(r), fmt);
    h := html;
    if Truthy(r.surfaceTemp) {
      html := html + Render(Temperature(r.surfaceTemp.value), fmt);
    }
    HtmlOptional(h, html, TemperatureLines(r), fmt);
    html := html + Render(Info(r.info), fmt);
    InfoLinesHtml(r, fmt);
    panel.innerHTML := html;
  }

  /** Appending nothing, or the rendering of the one line of `seg`, is appending `Html(seg)`. */
  lemma HtmlOptional(before: string, after: string, seg: seq<Line>, fmt: real -> string)
    requires |seg| <= 1
    requires seg == [] ==> after == before
    requires |seg| == 1 ==> after == before + Render(seg[0], fmt)
    ensures after == before + Html(seg, fmt)
  {
    if seg == [] {
      assert before + "" == before;
    } else {
      assert seg[1..] == [];
      assert Render(seg[0], fmt) + "" == Render(seg[0], fmt);
    }
  }

  lemma {:induction false} HtmlConcat(a: seq<Line>, b: seq<Line>, fmt: real -> string)
    ensures Html(a + b, fmt) == Html(a, fmt) + Html(b, fmt)
    decreases |a|
  {
    if a == [] {
      assert a + b == b;
    } else {
      assert (a + b)[0] == a[0];
      assert (a + b)[1..] == a[1..] + b;
      HtmlConcat(a[1..], b, fmt);
      calc {
        Html(a + b, fmt);
        Render(a[0], fmt) + Html(a[1..] + b, fmt);
        Render(a[0], fmt) + (Html(a[1..], fmt) + Html(b, fmt));
        (Render(a[0], fmt) + Html(a[1..], fmt)) + Html(b, fmt);
        Html(a, fmt) + Html(b, fmt);
      }
    }
  }

  /** The panel HTML of a record splits into the HTML of its optional segments. */
  lemma InfoLinesHtml(r: BodyRecord, fmt: real -> string)
    ensures Html(InfoLines(r), fmt) ==
      Render(Heading(r.name), fmt) + Render(Description(r.description), fmt)
      + Html(DiameterLines(r), fmt) + Html(DistanceLines(r), fmt) + Html(OrbitalPeriodLines(r), fmt)
      + Html(RotationLines(r), fmt) + Html(TemperatureLines(r), fmt)
      + Render(Info(r.info), fmt)
  {
    var head := [Heading(r.name), Description(r.description)];
    assert Html(head, fmt) == Render(Heading(r.name), fmt) + Render(Description(r.description), fmt) by {
      assert head[1..][1..] == [];
      assert Html(head[1..], fmt) == Render(Description(r.description), fmt) + "";
      assert Render(Description(r.description), fmt) + "" == Render(Description(r.description), fmt);
    }
    var s1 := head + DiameterLines(r);
    var s2 := s1 + DistanceLines(r);
    var s3 := s2 + OrbitalPeriodLines(r);
    var s4 := s3 + RotationLines(r);
    var s5 := s4 + TemperatureLines(r);
    HtmlConcat(head, DiameterLines(r), fmt);
    HtmlConcat(s1, DistanceLines(r), fmt);
    HtmlConcat(s2, OrbitalPeriodLines(r), fmt);
    HtmlConcat(s3, RotationLines(r), fmt);
    HtmlConcat(s4, TemperatureLines(r), fmt);
    HtmlConcat(s5, [Info(r.info)], fmt);
    assert InfoLines(r) == s5 + [Info(r.info)];
  }

  // Properties of the emitted lines.

  /** Lines come out strictly in emission order, so no kind of line appears twice. */
  lemma InfoLinesOrdered(r: BodyRecord)
    ensures forall i, j | 0 <= i < j < |InfoLines(r)| :: Rank(InfoLines(r)[i]) < Rank(InfoLines(r)[j])
  {
    var head := [Heading(r.name), Description(r.description)];
    assert Ascending(head) && forall l | l in head :: Rank(l) < 2;
    var s1 := head + DiameterLines(r);
    AscendingExtend(head, DiameterLines(r), 2);
    var s2 := s1 + DistanceLines(r);
    AscendingExtend(s1, DistanceLines(r), 3);
    var s3 := s2 + OrbitalPeriodLines(r);
    AscendingExtend(s2, OrbitalPeriodLines(r), 4);
    var s4 := s3 + RotationLines(r);
    AscendingExtend(s3, RotationLines(r), 5);
    var s5 := s4 + TemperatureLines(r);
    AscendingExtend(s4, TemperatureLines(r), 6);
    AscendingExtend(s5, [Info(r.info)], 7);
    assert InfoLines(r) == s5 + [Info(r.info)];
  }

  ghost predicate Ascending(s: seq<Line>) {
    forall i, j | 0 <= i < j < |s| :: Rank(s[i]) < Rank(s[j])
  }

  /** An ascending run of ranks below k, followed by at most one line of rank k, is ascending. */
  lemma AscendingExtend(a: seq<Line>, b: seq<Line>, k: nat)
    requires Ascending(a) && forall l | l in a :: Rank(l) < k
    requires |b| <= 1 && forall l | l in b :: Rank(l) == k
    ensures Ascending(a + b) && forall l | l in a + b :: Rank(l) < k + 1
  {
    var c := a + b;
    forall i, j | 0 <= i < j < |c|
      ensures Rank(c[i]) < Rank(c[j])
    {
      assert c[i] == a[i];
      if j < |a| {
        assert c[j] == a[j];
      } else {
        assert c[j] in b;
      }
    }
    assert forall l | l in c :: l in a || l in b;
  }

  /** The heading and description come first and the info paragraph last. */
  lemma InfoLinesFrame(r: BodyRecord)
    ensures |InfoLines(r)| >= 3
    ensures InfoLines(r)[0] == Heading(r.name)
    ensures InfoLines(r)[1] == Description(r.description)
    ensures InfoLines(r)[|InfoLines(r)| - 1] == Info(r.info)
  {
  }

  /** Each numeric line appears exactly when its field is truthy, and shows that field. */
  lemma FieldLinesPresence(r: BodyRecord)
    ensures Truthy(r.diameter) ==> Diameter(r.diameter.value) in InfoLines(r)
    ensures Truthy(r.distanceFromSun) ==> Distance(r.distanceFromSun.value) in InfoLines(r)
    ensures Truthy(r.orbitalPeriod) ==> OrbitalPeriod(r.orbitalPeriod.value) in InfoLines(r)
    ensures Truthy(r.surfaceTemp) ==> Temperature(r.surfaceTemp.value) in InfoLines(r)
    ensures forall l | l in InfoLines(r) && l.Diameter? :: Truthy(r.diameter) && l.km == r.diameter.value
    ensures forall l | l in InfoLines(r) && l.Distance? :: Truthy(r.distanceFromSun) && l.millionKm == r.distanceFromSun.value
    ensures forall l | l in InfoLines(r) && l.OrbitalPeriod? :: Truthy(r.orbitalPeriod) && l.days == r.orbitalPeriod.value
    ensures forall l | l in InfoLines(r) && l.Temperature? :: Truthy(r.surfaceTemp) && l.kelvin == r.surfaceTemp.value
  {
  }

  /**
   * A rotation line appears exactly when the period is truthy; it shows the
   * magnitude of the period and is marked retrograde iff the period is negative.
   */
  lemma RotationLine(r: BodyRecord)
    ensures Truthy(r.rotationPeriod) ==> Rotation(Abs(r.rotationPeriod.value), r.rotationPeriod.value < 0.0) in InfoLines(r)
    ensures forall l | l in InfoLines(r) && l.Rotation? ::
      Truthy(r.rotationPeriod)
      && l.days > 0.0
      && (l.days == r.rotationPeriod.value || l.days == -r.rotationPeriod.value)
      && (l.retrograde <==> r.rotationPeriod.value < 0.0)
  {
  }

  /** Venus and Uranus are the only records with a negative rotation period. */
  lemma OnlyVenusAndUranusRetrograde()
    ensures forall k | k in CelestialData() ::
      (CelestialData()[k].rotationPeriod.Some? && CelestialData()[k].rotationPeriod.value < 0.0)
      <==> (k == "venus" || k == "uranus")
  {
  }

  /** The blackhole record has no numeric field, so only heading, description and info are shown. */
  lemma BlackholeShowsThreeLines()
    ensures "blackhole" in CelestialData()
    ensures InfoLines(CelestialData()["blackhole"]) ==
      [Heading("黑洞"), Description(CelestialData()["blackhole"].description), Info(CelestialData()["blackhole"].info)]
  {
  }

  /** The sun record lacks a distance and an orbital period, so those lines are absent for it. */
  lemma SunHasNoOrbitLines()
    ensures "sun" in CelestialData()
    ensures forall i | 0 <= i < |InfoLines(CelestialData()["sun"])| ::
      !InfoLines(CelestialData()["sun"])[i].Distance? && !InfoLines(CelestialData()["sun"])[i].OrbitalPeriod?
  {
  }

  /** An unknown name writes the placeholder and nothing else. */
  lemma UnknownNameShowsPlaceholder(name: string, fmt: real -> string)
    requires name !in CelestialData()
    ensures PanelHtml(CelestialData(), name, fmt) == Placeholder
  {
  }
}
