/** Move protocols of the Maholo cell (`drivers/maholo/maholo_api/protocol_generator.py`):
    protocol names such as `move_plate6well_LS#9#LifterPlate#1_Co2IB#1#2` are
    parsed into a labware and two positions, compared with the available
    templates, and their XML fragments are written out. */
module MoveProtocols {
  import opened Common
  import MaholoDriver

  datatype Device = Co2IB | CoolIB | AB | LS | Lifter

  /** The keys of `device_dict`. */
  function DeviceOf(name: string): (r: Option<Device>)
    ensures r.Some? ==> DeviceName(r.value) == name
    ensures r.None? ==> forall d: Device :: DeviceName(d) != name
  {
    if name == "Co2IB" then Some(Co2IB)
    else if name == "CoolIB" then Some(CoolIB)
    else if name == "AB" then Some(AB)
    else if name == "LS" then Some(LS)
    else if name == "Lifter" then Some(Lifter)
    else None
  }

  function DeviceName(d: Device): string {
    match d
    case Co2IB => "Co2IB"
    case CoolIB => "CoolIB"
    case AB => "AB"
    case LS => "LS"
    case Lifter => "Lifter"
  }

  /** `device_dict[d].format(labware=..., section=..., jig=...)`. */
  function DeviceText(d: Device, labware: string, section: string, jig: string): string {
    match d
    case Co2IB => "CO2 incubator(" + labware + ")-" + section + " #" + jig
    case CoolIB => "Cool-incubator(" + labware + ")-" + section + " #" + jig
    case AB => "Alumibath-non cover(" + labware + ")-" + section + " #" + jig
    case LS => "Lifter-stocker(" + labware + ")-" + section + " #" + jig
    case Lifter => "Lifter-stocker(" + labware + ")-" + section
  }

  /** `labware_dict`: the display name of a labware in device settings. */
  function LabwareDisplay(labware: string): Option<string> {
    if labware == "plate6well" then Some("6well microplate")
    else if labware == "tube50ml" then Some("50ml tube")
    else if labware == "tube1.5ml" then Some("1.5ml tube")
    else None
  }

  /** `LifterInit.labware_dict`: the label of a labware in lifter settings. */
  function LifterLabel(labware: string): Option<string> {
    if labware == "plate6well" then Some("Plate(6Well)")
    else if labware == "tube50ml" then Some("Tube(50ml)")
    else if labware == "tube1.5ml" then Some("Tube(1.5ml)")
    else None
  }

  /** The label of an empty lifter slot. */
  const NoLabware: string := "\U{7121}\U{3057}"

  /** A device position: section and jig are kept as the text they were
      parsed from. */
  datatype Position = Position(device: Device, section: string, jig: string)

  /** `Position.parse_device`: split on '#'; Co2IB reads (section, jig) from
      the next two fields, AB and CoolIB have section "1" and the jig in the
      next field, LS reads the section from the second field and the jig
      from the fourth. "Lifter" is a known device with no branch, so the
      result is `None`. A missing field raises IndexError. */
  function ParseDevice(text: string): (r: Result<Option<Position>>)
    ensures r.Ok? ==> DeviceOf(Split(text, '#')[0]).Some?
    ensures r.Ok? && r.value.Some? ==> r.value.value.device == DeviceOf(Split(text, '#')[0]).value
    ensures r.Ok? && r.value.None? <==> Split(text, '#')[0] == "Lifter"
    ensures DeviceOf(Split(text, '#')[0]).None? ==> r.Err? && r.error.ValueError?
  {
    var tokens := Split(text, '#');
    var name := tokens[0];
    match DeviceOf(name)
    case None => Err(ValueError("Invalid device: " + name))
    case Some(d) =>
      match d
      case Co2IB =>
        if |tokens| < 3 then Err(IndexError("list index out of range"))
        else Ok(Some(Position(d, tokens[1], tokens[2])))
      case AB =>
        if |tokens| < 2 then Err(IndexError("list index out of range"))
        else Ok(Some(Position(d, "1", tokens[1])))
      case CoolIB =>
        if |tokens| < 2 then Err(IndexError("list index out of range"))
        else Ok(Some(Position(d, "1", tokens[1])))
      case LS =>
        if |tokens| < 4 then Err(IndexError("list index out of range"))
        else Ok(Some(Position(d, tokens[1], tokens[3])))
      case Lifter => Ok(None)
  }

  /** Each device reads back the fields it was written with. */
  lemma ParseCo2IB(section: string, jig: string)
    requires '#' !in section && '#' !in jig
    ensures ParseDevice("Co2IB#" + section + "#" + jig) == Ok(Some(Position(Co2IB, section, jig)))
  {
    SplitFields(["Co2IB", section, jig], '#');
    JoinUnfold3("Co2IB", section, jig, '#');
    assert "Co2IB#" == "Co2IB" + ['#'];
  }

  lemma ParseBath(jig: string)
    requires '#' !in jig
    ensures ParseDevice("AB#" + jig) == Ok(Some(Position(AB, "1", jig)))
    ensures ParseDevice("CoolIB#" + jig) == Ok(Some(Position(CoolIB, "1", jig)))
  {
    SplitFields(["AB", jig], '#');
    JoinUnfold2("AB", jig, '#');
    assert "AB#" == "AB" + ['#'];
    SplitFields(["CoolIB", jig], '#');
    JoinUnfold2("CoolIB", jig, '#');
    assert "CoolIB#" == "CoolIB" + ['#'];
  }

  /** LS skips the third field. */
  lemma ParseStocker(section: string, other: string, jig: string)
    requires '#' !in section && '#' !in jig && '#' !in other
    ensures ParseDevice("LS#" + section + "#" + other + "#" + jig) == Ok(Some(Position(LS, section, jig)))
  {
    SplitFields(["LS", section, other, jig], '#');
    JoinUnfold4("LS", section, other, jig, '#');
    assert "LS#" == "LS" + ['#'];
  }

  /** "Lifter" parses to nothing, so building a position from it fails. */
  lemma ParseLifter(section: string)
    requires '#' !in section
    ensures ParseDevice("Lifter#" + section) == Ok(None)
    ensures NewPosition("Lifter#" + section).Err? && NewPosition("Lifter#" + section).error.TypeError?
  {
    SplitFields(["Lifter", section], '#');
    JoinUnfold2("Lifter", section, '#');
    assert "Lifter#" == "Lifter" + ['#'];
  }

  lemma SplitFields(parts: seq<string>, sep: char)
    requires |parts| >= 1 && forall i | 0 <= i < |parts| :: sep !in parts[i]
    ensures Split(Join(parts, sep), sep) == parts
  {
    SplitJoin(parts, sep);
  }

  lemma JoinUnfold2(a: string, b: string, sep: char)
    ensures Join([a, b], sep) == a + [sep] + b
  {
    assert [a, b][1..] == [b];
  }

  lemma JoinUnfold3(a: string, b: string, c: string, sep: char)
    ensures Join([a, b, c], sep) == a + [sep] + b + [sep] + c
  {
    assert [a, b, c][1..] == [b, c];
    JoinUnfold2(b, c, sep);
  }

  lemma JoinUnfold4(a: string, b: string, c: string, d: string, sep: char)
    ensures Join([a, b, c, d], sep) == a + [sep] + b + [sep] + c + [sep] + d
  {
    assert [a, b, c, d][1..] == [b, c, d];
    JoinUnfold3(b, c, d, sep);
  }

  /** `Position(device_str)`: unpacking the `None` of a Lifter raises
      TypeError. */
  function NewPosition(text: string): (r: Result<Position>)
    ensures r.Ok? <==> ParseDevice(text).Ok? && ParseDevice(text).value.Some?
    ensures r.Ok? ==> r.value == ParseDevice(text).value.value
  {
    var p :- ParseDevice(text);
    if p.None? then Err(TypeError("cannot unpack non-iterable NoneType object"))
    else Ok(p.value)
  }

  datatype MoveProtocol = MoveProtocol(protocolName: string, labware: string, from: Position, to: Position)

  /** `MoveProtocol(protocol_name)`: the name must split on '_' into exactly
      four fields (prefix, labware, from, to); the unpacking raises
      ValueError otherwise. */
  function ParseMoveProtocol(name: string): (r: Result<MoveProtocol>)
    ensures |Split(name, '_')| != 4 ==> r.Err? && r.error.ValueError?
    ensures r.Ok? ==>
      var parts := Split(name, '_');
      |parts| == 4 && r.value.protocolName == name && r.value.labware == parts[1]
      && NewPosition(parts[2]) == Ok(r.value.from) && NewPosition(parts[3]) == Ok(r.value.to)
  {
    var parts := Split(name, '_');
    if |parts| != 4 then Err(ValueError("wrong number of values to unpack"))
    else
      var from :- NewPosition(parts[2]);
      var to :- NewPosition(parts[3]);
      Ok(MoveProtocol(name, parts[1], from, to))
  }

  lemma NoUnderscoreAfterReplace(path: string)
    requires '_' !in path
    ensures '_' !in MaholoDriver.PathReplace(path)
  {
    var r := MaholoDriver.PathReplace(path);
    forall i | 0 <= i < |r| ensures r[i] != '_' {
      assert path[i] in path;
    }
  }

  /** The driver's move name splits on '_' into its four fields. */
  lemma MoveNameFields(what: string, from: string, to: string)
    requires '_' !in what && '_' !in from && '_' !in to
    ensures Split(MaholoDriver.MoveName(what, from, to), '_')
      == ["move", what, MaholoDriver.PathReplace(from), MaholoDriver.PathReplace(to)]
  {
    var f := MaholoDriver.PathReplace(from);
    var t := MaholoDriver.PathReplace(to);
    NoUnderscoreAfterReplace(from);
    NoUnderscoreAfterReplace(to);
    var parts := ["move", what, f, t];
    SplitJoin(parts, '_');
    JoinUnfold4("move", what, f, t, '_');
    assert "move_" == "move" + ['_'];
    assert Join(parts, '_') == MaholoDriver.MoveName(what, from, to);
  }

  /** The driver names a move `move_<what>_<from>_<to>` with '/' turned into
      '#'; with no '_' in the three parts, the generator reads back exactly
      that labware and those two positions. */
  lemma DriverMoveNameParses(what: string, from: string, to: string)
    requires '_' !in what && '_' !in from && '_' !in to
    ensures var r := ParseMoveProtocol(MaholoDriver.MoveName(what, from, to));
      var f := NewPosition(MaholoDriver.PathReplace(from));
      var t := NewPosition(MaholoDriver.PathReplace(to));
      (r.Ok? <==> f.Ok? && t.Ok?)
      && (r.Ok? ==> r.value.labware == what && r.value.from == f.value && r.value.to == t.value)
  {
    MoveNameFields(what, from, to);
  }

  /** Two moves between LS stockers. */
  predicate StockerToStocker(p: MoveProtocol) {
    p.from.device == LS && p.to.device == LS
  }

  /** `match`: same labware and same device kinds at both ends; when the
      template moves between LS stockers, whether both ends share a section
      must agree too. */
  predicate Match(template: MoveProtocol, p: MoveProtocol)
    ensures Match(template, p) ==>
      template.labware == p.labware && template.from.device == p.from.device && template.to.device == p.to.device
  {
    if StockerToStocker(template) then
      if template.from.section == template.to.section then
        template.labware == p.labware && template.from.device == p.from.device
        && template.to.device == p.to.device && p.from.section == p.to.section
      else
        template.labware == p.labware && template.from.device == p.from.device
        && template.to.device == p.to.device && p.from.section != p.to.section
    else
      template.labware == p.labware && template.from.device == p.from.device && template.to.device == p.to.device
  }

  /** What `match` compares: labware, device kinds, and for a move between
      LS stockers whether it stays in one section. */
  datatype MatchKey = MatchKey(labware: string, from: Device, to: Device, sameSection: Option<bool>)

  function KeyOf(p: MoveProtocol): MatchKey {
    MatchKey(p.labware, p.from.device, p.to.device,
             if StockerToStocker(p) then Some(p.from.section == p.to.section) else None)
  }

  /** Two moves match exactly when their keys agree; `match` is therefore
      reflexive, symmetric and transitive. */
  lemma MatchIsSameKey(a: MoveProtocol, b: MoveProtocol)
    ensures Match(a, b) <==> KeyOf(a) == KeyOf(b)
    ensures Match(a, a)
    ensures Match(a, b) ==> Match(b, a)
  {
  }

  /** `choice_template`: the first template, in list order, that matches. */
  function ChoiceTemplate(templates: seq<MoveProtocol>, p: MoveProtocol): (r: Result<MoveProtocol>)
    ensures r.Err? <==> forall i | 0 <= i < |templates| :: !Match(templates[i], p)
    ensures r.Err? ==> r.error.ValueError?
    ensures r.Ok? ==> exists i | 0 <= i < |templates| ::
      (templates[i] == r.value && Match(r.value, p) && forall j | 0 <= j < i :: !Match(templates[j], p))
  {
    if templates == [] then Err(ValueError("No template found for " + p.protocolName))
    else if Match(templates[0], p) then Ok(templates[0])
    else
      var r := ChoiceTemplate(templates[1..], p);
      assert forall i | 1 <= i < |templates| :: templates[i] == templates[1..][i - 1];
      if r.Ok? then
        ghost var i :| 0 <= i < |templates[1..]| && templates[1..][i] == r.value && Match(r.value, p)
          && forall j | 0 <= j < i :: !Match(templates[1..][j], p);
        assert templates[i + 1] == r.value;
        assert forall j | 0 <= j < i + 1 :: !Match(templates[j], p) by {
          forall j | 0 <= j < i + 1 ensures !Match(templates[j], p) {
            if j > 0 {
              assert templates[j] == templates[1..][j - 1];
            }
          }
        }
        r
      else r
  }

  /** `LifterInit(labware, section).xml_text()`. */
  function LifterInitXml(labware: string, section: string): string {
    var shown := if LifterLabel(labware).Some? then LifterLabel(labware).value else NoLabware;
    SettingXml(section, shown)
  }

  /** A lifter setting element: `<settingParamS name="Stocker #S">item</settingParamS>`. */
  function SettingXml(section: string, item: string): string {
    OpenTag(section) + item + CloseTag(section)
  }

  function OpenTag(section: string): string {
    "<settingParam" + section + " name=\"Stocker #" + section + "\">"
  }

  function CloseTag(section: string): string {
    "</settingParam" + section + ">"
  }

  function SurroundWithArrows(text: string): string {
    ">" + text + "<"
  }

  /** `from_xml` / `to_xml`: KeyError for a labware outside `labware_dict`. */
  function PositionXml(p: MoveProtocol, at: Position): (r: Result<string>)
    ensures r.Err? <==> LabwareDisplay(p.labware).None?
    ensures r.Err? ==> r.error.KeyError?
    ensures r.Ok? ==> r.value == ">" + DeviceText(at.device, LabwareDisplay(p.labware).value, at.section, at.jig) + "<"
  {
    match LabwareDisplay(p.labware)
    case None => Err(KeyError(p.labware))
    case Some(display) => Ok(SurroundWithArrows(DeviceText(at.device, display, at.section, at.jig)))
  }

  function FromXml(p: MoveProtocol): (r: Result<string>)
    ensures r.Err? <==> LabwareDisplay(p.labware).None?
    ensures r.Ok? ==> r.value == ">" + DeviceText(p.from.device, LabwareDisplay(p.labware).value, p.from.section, p.from.jig) + "<"
  {
    PositionXml(p, p.from)
  }

  function ToXml(p: MoveProtocol): (r: Result<string>)
    ensures r.Err? <==> LabwareDisplay(p.labware).None?
    ensures r.Ok? ==> r.value == ">" + DeviceText(p.to.device, LabwareDisplay(p.labware).value, p.to.section, p.to.jig) + "<"
  {
    PositionXml(p, p.to)
  }

  /** `lifter_xml`: the Lifter template at the destination's section. */
  function LifterXml(p: MoveProtocol): (r: Result<string>)
    ensures r == PositionXml(p, Position(Lifter, p.to.section, ""))
  {
    match LabwareDisplay(p.labware)
    case None => Err(KeyError(p.labware))
    case Some(display) => Ok(SurroundWithArrows(DeviceText(Lifter, display, p.to.section, "")))
  }

  /** `str.replace(pat, rep)`: every leftmost non-overlapping occurrence. */
  function ReplaceAll(s: string, pat: string, rep: string): (r: string)
    requires |pat| > 0
    decreases |s|
  {
    if |s| < |pat| then s
    else if s[..|pat|] == pat then rep + ReplaceAll(s[|pat|..], pat, rep)
    else [s[0]] + ReplaceAll(s[1..], pat, rep)
  }

  predicate StartsWith(s: string, pat: string) {
    |pat| <= |s| && s[..|pat|] == pat
  }

  /** Where no occurrence starts, the first character is copied. */
  lemma ReplaceStep(s: string, pat: string, rep: string)
    requires |pat| > 0 && |s| > 0 && !StartsWith(s, pat)
    ensures ReplaceAll(s, pat, rep) == [s[0]] + ReplaceAll(s[1..], pat, rep)
  {
    if |s| < |pat| {
      assert ReplaceAll(s[1..], pat, rep) == s[1..];
      assert [s[0]] + s[1..] == s;
    }
  }

  /** Text in which no occurrence starts is copied unchanged. */
  lemma {:induction false} ReplaceSkips(t: string, rest: string, pat: string, rep: string)
    requires |pat| > 0
    requires forall i | 0 <= i < |t| :: !StartsWith(t[i..] + rest, pat)
    ensures ReplaceAll(t + rest, pat, rep) == t + ReplaceAll(rest, pat, rep)
  {
    if t != [] {
      var s := t + rest;
      assert t[0..] == t;
      ReplaceStep(s, pat, rep);
      var t' := t[1..];
      forall i | 0 <= i < |t'|
        ensures !StartsWith(t'[i..] + rest, pat)
      {
        assert t'[i..] == t[i + 1..];
      }
      ReplaceSkips(t', rest, pat, rep);
      assert s[1..] == t' + rest;
      calc {
        ReplaceAll(s, pat, rep);
        [t[0]] + ReplaceAll(t' + rest, pat, rep);
        [t[0]] + (t' + ReplaceAll(rest, pat, rep));
        ([t[0]] + t') + ReplaceAll(rest, pat, rep);
        { assert [t[0]] + t' == t; }
        t + ReplaceAll(rest, pat, rep);
      }
    } else {
      assert t + rest == rest;
    }
  }

  /** An occurrence at the head is replaced. */
  lemma ReplaceAtHead(rest: string, pat: string, rep: string)
    requires |pat| > 0
    ensures ReplaceAll(pat + rest, pat, rep) == rep + ReplaceAll(rest, pat, rep)
  {
    assert (pat + rest)[..|pat|] == pat;
    assert (pat + rest)[|pat|..] == rest;
  }

  function RemoveLifters(p: MoveProtocol, xml: string): string {
    var x := ReplaceAll(xml, LifterInitXml(p.labware, p.from.section), LifterInitXml("", p.from.section));
    ReplaceAll(x, LifterInitXml(p.labware, p.to.section), LifterInitXml("", p.to.section))
  }

  function AddLifters(p: MoveProtocol, xml: string): string {
    var x := ReplaceAll(xml, LifterInitXml("", p.from.section), LifterInitXml(p.labware, p.from.section));
    ReplaceAll(x, LifterInitXml("", p.to.section), LifterInitXml(p.labware, p.to.section))
  }

  /** A project file as the lifter edits see it: text holding no '<',
      and lifter setting elements. */
  datatype Piece = Text(text: string) | Setting(section: string, item: string)

  function RenderPiece(q: Piece): string {
    match q
    case Text(t) => t
    case Setting(s, x) => SettingXml(s, x)
  }

  function Render(doc: seq<Piece>): string {
    if doc == [] then "" else RenderPiece(doc[0]) + Render(doc[1..])
  }

  predicate Digits(s: string) {
    |s| > 0 && forall i | 0 <= i < |s| :: '0' <= s[i] <= '9'
  }

  predicate WellFormed(doc: seq<Piece>) {
    forall i | 0 <= i < |doc| ::
      match doc[i]
      case Text(t) => '<' !in t
      case Setting(s, x) => Digits(s) && '<' !in x
  }

  /** The setting `(section, from)` becomes `(section, to)`; nothing else
      changes. */
  function SwapPiece(q: Piece, section: string, from: string, to: string): Piece {
    if q == Setting(section, from) then Setting(section, to) else q
  }

  function Swap(doc: seq<Piece>, section: string, from: string, to: string): (r: seq<Piece>)
    ensures |r| == |doc|
    ensures forall i | 0 <= i < |doc| :: r[i] == SwapPiece(doc[i], section, from, to)
  {
    if doc == [] then [] else [SwapPiece(doc[0], section, from, to)] + Swap(doc[1..], section, from, to)
  }

  /** Inside one setting element, every '<' but the first opens `</`. */
  predicate LtOnlyBeforeSlash(t: string) {
    forall i | 0 <= i < |t| && t[i] == '<' :: i + 1 < |t| && t[i + 1] == '/'
  }

  lemma DigitsHaveNoLt(s: string)
    requires Digits(s)
    ensures '<' !in s
  {
    forall i | 0 <= i < |s| ensures s[i] != '<' { }
  }

  lemma LtOnlyAfterText(u: string, v: string)
    requires '<' !in u && LtOnlyBeforeSlash(v)
    ensures LtOnlyBeforeSlash(u + v)
  {
    var t := u + v;
    forall i | 0 <= i < |u| ensures t[i] != '<' {
      assert t[i] == u[i];
      assert u[i] in u;
    }
    forall i | |u| <= i < |t| && t[i] == '<'
      ensures i + 1 < |t| && t[i + 1] == '/'
    {
      assert t[i] == v[i - |u|];
    }
  }

  lemma CloseTagLt(s: string)
    requires '<' !in s
    ensures LtOnlyBeforeSlash(CloseTag(s))
  {
    var w := "settingParam" + s + ">";
    assert '<' !in w;
    var c := CloseTag(s);
    assert c == "</" + w;
    forall i | 2 <= i < |c| ensures c[i] != '<' {
      assert c[i] == w[i - 2];
      assert w[i - 2] in w;
    }
  }

  lemma SettingTail(s: string, x: string)
    requires Digits(s) && '<' !in x
    ensures LtOnlyBeforeSlash(SettingXml(s, x)[1..])
  {
    var m := OpenTagTail(s) + x;
    OpenTagSplit(s);
    OpenTagTailNoLt(s);
    assert '<' !in m;
    DropLt(OpenTagTail(s), x, CloseTag(s));
    CloseTagLt(s);
    LtOnlyAfterText(m, CloseTag(s));
  }

  /** The open tag after its `<`. */
  function OpenTagTail(s: string): string {
    "settingParam" + s + " name=\"Stocker #" + s + "\">"
  }

  lemma OpenTagSplit(s: string)
    ensures OpenTag(s) == "<" + OpenTagTail(s)
  {
    assert "<settingParam" == "<" + "settingParam";
  }

  lemma OpenTagTailNoLt(s: string)
    requires Digits(s)
    ensures '<' !in OpenTagTail(s)
  {
    DigitsHaveNoLt(s);
    assert '<' !in "settingParam" && '<' !in " name=\"Stocker #" && '<' !in "\">";
  }

  lemma DropLt(a: string, x: string, c: string)
    ensures (("<" + a) + x + c)[1..] == a + x + c
  {
  }

  /** Differing at a position both strings have rules out a prefix match. */
  lemma Mismatch(a: string, b: string, rest: string, k: nat)
    requires k < |a| && k < |b| && a[k] != b[k]
    ensures !StartsWith(b + rest, a)
  {
    if |a| <= |b + rest| {
      assert (b + rest)[..|a|][k] == b[k];
    }
  }

  /** Two strings are equal, or differ at a position both have, or one is a
      proper prefix of the other. */
  lemma FirstDifference(u: string, v: string) returns (j: nat)
    ensures j <= |u| && j <= |v|
    ensures u == v || (j < |u| && j < |v| && u[j] != v[j]) || (j == |u| < |v|) || (j == |v| < |u|)
  {
    if exists i | 0 <= i < |u| && i < |v| :: u[i] != v[i] {
      j :| 0 <= j < |u| && j < |v| && u[j] != v[j];
    } else if |u| < |v| {
      j := |u|;
    } else {
      j := |v|;
    }
  }

  /** Elements of different sections already differ inside the open tag. */
  lemma SectionsDiffer(s: string, a: string, s2: string, x: string, rest: string)
    requires Digits(s) && Digits(s2) && s != s2
    ensures !StartsWith(SettingXml(s2, x) + rest, SettingXml(s, a))
  {
    var h := "<settingParam";
    SettingXmlSplit(s, a);
    SettingXmlSplit(s2, x);
    var j := FirstDifference(s, s2);
    AtPiece(h, s, SettingRest(s, a), j);
    AtPiece(h, s2, SettingRest(s2, x), j);
    Mismatch(SettingXml(s, a), SettingXml(s2, x), rest, |h| + j);
  }

  /** An element after `<settingParam` and its section digits. */
  function SettingRest(s: string, item: string): string {
    " name=\"Stocker #" + s + "\">" + item + CloseTag(s)
  }

  lemma SettingXmlSplit(s: string, item: string)
    ensures SettingXml(s, item) == "<settingParam" + s + SettingRest(s, item)
    ensures SettingRest(s, item)[0] == ' '
  {
  }

  /** A position in the middle piece of `h + u + t`, or the first of `t`. */
  lemma AtPiece(h: string, u: string, t: string, k: nat)
    requires k <= |u| && t != []
    ensures (h + u + t)[|h| + k] == if k < |u| then u[k] else t[0]
  {
  }

  /** Elements of one section with different items differ at the first
      place the items differ, or where the shorter one meets the close
      tag. */
  lemma ItemsDiffer(s: string, a: string, x: string, rest: string)
    requires '<' !in a && '<' !in x && a != x
    ensures !StartsWith(SettingXml(s, x) + rest, SettingXml(s, a))
  {
    var p := OpenTag(s);
    var c := CloseTag(s);
    var A := p + a + c;
    var B := p + x + c;
    assert c[0] == '<';
    var j := FirstDifference(a, x);
    if j < |a| && j < |x| {
      assert A[|p| + j] == a[j] && B[|p| + j] == x[j];
      Mismatch(A, B, rest, |p| + j);
    } else if j == |a| {
      assert x[j] in x;
      assert A[|p| + j] == '<' && B[|p| + j] == x[j];
      Mismatch(A, B, rest, |p| + j);
    } else {
      assert a[j] in a;
      assert A[|p| + j] == a[j] && B[|p| + j] == '<';
      Mismatch(A, B, rest, |p| + j);
    }
  }

  /** A setting element starts only with itself. */
  lemma SettingPrefix(s: string, a: string, s2: string, x: string, rest: string)
    requires Digits(s) && Digits(s2) && '<' !in a && '<' !in x
    ensures StartsWith(SettingXml(s2, x) + rest, SettingXml(s, a)) ==> s == s2 && a == x
  {
    if s != s2 {
      SectionsDiffer(s, a, s2, x, rest);
    } else if a != x {
      ItemsDiffer(s, a, x, rest);
    }
  }

  /** `xml_text` is injective: the element names its section and item. */
  lemma SettingXmlInjective(s: string, a: string, s2: string, x: string)
    requires Digits(s) && Digits(s2) && '<' !in a && '<' !in x
    requires SettingXml(s, a) == SettingXml(s2, x)
    ensures s == s2 && a == x
  {
    SettingPrefix(s, a, s2, x, "");
    assert SettingXml(s2, x) + "" == SettingXml(s, a);
  }

  /** Replacing one setting element by another in a rendered file is
      swapping that setting in the file. */
  lemma {:induction false} ReplaceSetting(doc: seq<Piece>, s: string, a: string, e: string)
    requires WellFormed(doc) && Digits(s) && '<' !in a && '<' !in e
    ensures ReplaceAll(Render(doc), SettingXml(s, a), SettingXml(s, e)) == Render(Swap(doc, s, a, e))
    ensures WellFormed(Swap(doc, s, a, e))
  {
    var A := SettingXml(s, a);
    var E := SettingXml(s, e);
    if doc != [] {
      var rest := Render(doc[1..]);
      assert WellFormed(doc[1..]) by {
        forall i | 0 <= i < |doc[1..]| ensures doc[1..][i] == doc[i + 1] { }
      }
      ReplaceSetting(doc[1..], s, a, e);
      assert Swap(doc, s, a, e)[1..] == Swap(doc[1..], s, a, e);
      assert A[0] == '<' && A[1] == 's';
      match doc[0]
      case Text(t) =>
        forall i | 0 <= i < |t| ensures !StartsWith(t[i..] + rest, A) {
          assert (t[i..] + rest)[0] == t[i];
          assert t[i] in t;
        }
        ReplaceSkips(t, rest, A, E);
      case Setting(s2, x) =>
        if (s2, x) == (s, a) {
          ReplaceAtHead(rest, A, E);
        } else {
          var B := SettingXml(s2, x);
          SettingTail(s2, x);
          forall i | 0 <= i < |B| ensures !StartsWith(B[i..] + rest, A) {
            if i == 0 {
              assert B[0..] == B;
              SettingPrefix(s, a, s2, x, rest);
            } else {
              assert B[i] == B[1..][i - 1];
              if B[i] == '<' {
                assert B[1..][i] == B[i + 1];
                Mismatch(A, B[i..], rest, 1);
              } else {
                Mismatch(A, B[i..], rest, 0);
              }
            }
          }
          ReplaceSkips(B, rest, A, E);
        }
    }
  }

  /** The settings of both ends of the move, as `remove_lifters` leaves them. */
  function Emptied(p: MoveProtocol, doc: seq<Piece>): seq<Piece> {
    var filled := LifterShown(p.labware);
    Swap(Swap(doc, p.from.section, filled, NoLabware), p.to.section, filled, NoLabware)
  }

  function LifterShown(labware: string): string {
    if LifterLabel(labware).Some? then LifterLabel(labware).value else NoLabware
  }

  lemma LabelsHaveNoLt(labware: string)
    ensures '<' !in LifterShown(labware) && '<' !in NoLabware
  {
    assert NoLabware == ['\U{7121}', '\U{3057}'];
  }

  /** Emptying both ends and then filling them again gives back every
      piece, when neither end held an empty setting. */
  lemma SwapBack(doc: seq<Piece>, fs: string, ts: string, l: string, n: string)
    requires forall i | 0 <= i < |doc| :: doc[i] != Setting(fs, n) && doc[i] != Setting(ts, n)
    ensures Swap(Swap(Swap(Swap(doc, fs, l, n), ts, l, n), fs, n, l), ts, n, l) == doc
  {
  }

  /** `remove_lifters` empties the settings of both ends holding the move's
      labware, and with no empty setting there before, `add_lifters` puts
      the file back as it was. */
  lemma LifterRoundTrip(p: MoveProtocol, doc: seq<Piece>)
    requires WellFormed(doc) && Digits(p.from.section) && Digits(p.to.section)
    requires forall i | 0 <= i < |doc| :: doc[i] != Setting(p.from.section, NoLabware) && doc[i] != Setting(p.to.section, NoLabware)
    ensures RemoveLifters(p, Render(doc)) == Render(Emptied(p, doc))
    ensures AddLifters(p, RemoveLifters(p, Render(doc))) == Render(doc)
  {
    var fs, ts := p.from.section, p.to.section;
    var l := LifterShown(p.labware);
    LabelsHaveNoLt(p.labware);
    var d1 := Swap(doc, fs, l, NoLabware);
    ReplaceSetting(doc, fs, l, NoLabware);
    var d2 := Swap(d1, ts, l, NoLabware);
    ReplaceSetting(d1, ts, l, NoLabware);
    var d3 := Swap(d2, fs, NoLabware, l);
    ReplaceSetting(d2, fs, NoLabware, l);
    var d4 := Swap(d3, ts, NoLabware, l);
    ReplaceSetting(d3, ts, NoLabware, l);
    SwapBack(doc, fs, ts, l, NoLabware);
  }
}
