/** CPU scheduling weight (CpuTuneDef) and the CPU model the guest sees (CpuModeDef). */
module Cpu {
  import opened Text

  /*** CPU tuning ***/

  class CpuTuneDef {
    var shares: Int32

    constructor ()
      ensures shares == 0
    {
      shares := 0;
    }

    method SetShares(n: Int32)
      modifies this`shares
      ensures shares == n
    {
      shares := n;
    }

    /** The shares element appears only for a positive weight. */
    function Lines(): seq<string>
      reads this
    {
      ["<cputune>\n"] + (if shares > 0 then [NumberElement("shares", shares)] else []) + ["</cputune>\n"]
    }

    function Xml(): string
      reads this
    {
      Join(Lines())
    }
  }

  lemma SharesShape(n: int)
    ensures Sig(NumberElement("shares", n)) == ('s', 'h', 'a')
  {
    NumberElementSig("shares", n);
  }

  /** The weight is rendered exactly when it is positive, and then with its own value. */
  lemma SharesIff(t: CpuTuneDef, n: int)
    ensures NumberElement("shares", n) in t.Lines() <==> t.shares > 0 && n == t.shares
  {
    if NumberElement("shares", n) in t.Lines() {
      SharesShape(n);
      assert NumberElement("shares", n) == t.Lines()[1];
      NumberElementInjective("shares", n, t.shares as int);
    }
  }

  /*** CPU mode ***/

  /** Which opening the mode selects. */
  datatype ModeKind = Custom | HostModel | HostPassthrough | Unspecified

  /** "custom" is matched without regard to case and needs a model; the two host modes are
      matched exactly. */
  function KindOf(mode: Option<string>, model: Option<string>): (k: ModeKind)
    ensures k == Custom ==> model.Some?
  {
    if EqualsIgnoreCase("custom", mode) && model.Some? then Custom
    else if mode == Some("host-model") then HostModel
    else if mode == Some("host-passthrough") then HostPassthrough
    else Unspecified
  }

  const CpuModeAttr := "<cpu mode='"
  const CustomHead := CpuModeAttr + "custom' match='exact'>" + "<model fallback='allow'>"

  function Opening(mode: Option<string>, model: Option<string>): string {
    match KindOf(mode, model)
    case Custom => CustomHead + model.value + "</model>"
    case HostModel => CpuModeAttr + "host-model'>" + "<model fallback='allow'></model>"
    case HostPassthrough => CpuModeAttr + "host-passthrough'>"
    case Unspecified => "<cpu>"
  }

  function FeatureElement(f: Option<string>): string {
    "<feature policy='require' name='" + OrNull(f) + "'/>"
  }

  function FeatureLines(fs: seq<Option<string>>): (r: seq<string>)
    ensures |r| == |fs| && forall i :: 0 <= i < |fs| ==> r[i] == FeatureElement(fs[i])
  {
    seq(|fs|, i requires 0 <= i < |fs| => FeatureElement(fs[i]))
  }

  function TopologyElement(sockets: int, cores: int): string {
    "<topology sockets='" + IntToString(sockets) + ("' cores='" + IntToString(cores) + "' threads='1' />")
  }

  class CpuModeDef {
    var mode: Option<string>
    var model: Option<string>
    /** The required features; a null list renders none. */
    var features: Option<seq<Option<string>>>
    var coresPerSocket: Int32
    var sockets: Int32

    constructor ()
      ensures mode.None? && model.None? && features.None? && coresPerSocket == -1 && sockets == -1
    {
      mode, model, features := None, None, None;
      coresPerSocket, sockets := -1, -1;
    }

    method SetMode(m: Option<string>)
      modifies this`mode
      ensures mode == m
    {
      mode := m;
    }

    /** A null list is ignored: the features set before stay. */
    method SetFeatures(fs: Option<seq<Option<string>>>)
      modifies this`features
      ensures features == if fs.Some? then fs else old(features)
    {
      if fs.Some? {
        features := fs;
      }
    }

    method SetModel(m: Option<string>)
      modifies this`model
      ensures model == m
    {
      model := m;
    }

    method SetTopology(cores: Int32, socks: Int32)
      modifies this`coresPerSocket, this`sockets
      ensures coresPerSocket == cores && sockets == socks
    {
      coresPerSocket, sockets := cores, socks;
    }

    function FeatureList(): seq<Option<string>>
      reads this
    {
      if features.Some? then features.value else []
    }

    function TopologyLines(): seq<string>
      reads this
    {
      if sockets > 0 && coresPerSocket > 0 then [TopologyElement(sockets, coresPerSocket)] else []
    }

    function Lines(): seq<string>
      reads this
    {
      [Opening(mode, model)] + FeatureLines(FeatureList()) + TopologyLines() + ["</cpu>"]
    }

    function Xml(): string
      reads this
    {
      Join(Lines())
    }

    method ToString() returns (s: string)
      ensures s == Xml()
    {
      var feats := FeaturesText();
      s := Opening(mode, model) + feats;
      if sockets > 0 && coresPerSocket > 0 {
        s := s + TopologyElement(sockets, coresPerSocket);
      }
      s := s + "</cpu>";
      CpuJoin(this);
    }

    /** The feature elements, appended in the order of the list. */
    method FeaturesText() returns (s: string)
      ensures s == Join(FeatureLines(FeatureList()))
    {
      var fs := FeatureList();
      var lines := FeatureLines(fs);
      s := "";
      var i := 0;
      while i < |fs|
        invariant 0 <= i <= |fs|
        invariant s == Join(lines[..i])
      {
        JoinSnoc(lines, i);
        s := s + FeatureElement(fs[i]);
        i := i + 1;
      }
      assert lines[..i] == lines;
    }
  }

  lemma JoinOne(x: string)
    ensures Join([x]) == x
  {
    assert [x][..0] == [];
  }

  lemma CpuJoin(c: CpuModeDef)
    ensures c.Xml() == Opening(c.mode, c.model) + Join(FeatureLines(c.FeatureList())) + Join(c.TopologyLines()) + "</cpu>"
  {
    var a, b, t := [Opening(c.mode, c.model)], FeatureLines(c.FeatureList()), c.TopologyLines();
    JoinAppend(a + b + t, ["</cpu>"]);
    JoinAppend(a + b, t);
    JoinAppend(a, b);
    JoinOne(Opening(c.mode, c.model));
    JoinOne("</cpu>");
    if t != [] {
      JoinOne(t[0]);
    }
  }

  /** The case-insensitive match: a mode selects a custom model exactly when a model is set
      and the mode is "custom" in any casing of its six letters. */
  lemma CustomAnyCase(m: string, model: Option<string>)
    ensures KindOf(Some(m), model) == Custom <==>
            model.Some? && |m| == 6 && forall i :: 0 <= i < 6 ==> LowerAscii(m[i]) == "custom"[i]
  {
    if model.Some? && |m| == 6 && forall i :: 0 <= i < 6 ==> LowerAscii(m[i]) == "custom"[i] {
      forall i | 0 <= i < 6
        ensures LowerAscii("custom"[i]) == LowerAscii(m[i])
      {
      }
    }
  }

  /** The host modes are matched exactly, with or without a model. */
  lemma HostModesExact(mode: Option<string>, model: Option<string>)
    ensures KindOf(mode, model) == HostModel <==> mode == Some("host-model")
    ensures KindOf(mode, model) == HostPassthrough <==> mode == Some("host-passthrough")
  {
  }

  /** A custom mode without a model falls back to a bare cpu element. */
  lemma CustomNeedsModel(mode: Option<string>, model: Option<string>)
    requires EqualsIgnoreCase("custom", mode) && model.None?
    ensures KindOf(mode, model) == Unspecified && Opening(mode, model) == "<cpu>"
  {
  }

  /** The opening tells the mode apart: equal openings come from the same kind of mode,
      and two custom openings from the same model. */
  lemma OpeningDeterminesMode(m1: Option<string>, o1: Option<string>, m2: Option<string>, o2: Option<string>)
    requires Opening(m1, o1) == Opening(m2, o2)
    ensures KindOf(m1, o1) == KindOf(m2, o2)
    ensures KindOf(m1, o1) == Custom ==> o1 == o2
  {
    var k1, k2 := KindOf(m1, o1), KindOf(m2, o2);
    OpeningMark(m1, o1);
    OpeningMark(m2, o2);
    if k1 == Custom && k2 == Custom {
      MiddleUnique(CustomHead, o1.value, o2.value, "</model>");
    }
  }

  /** Each kind leaves its own mark: the fifth character, the twelfth and the seventeenth. */
  lemma OpeningMark(mode: Option<string>, model: Option<string>)
    ensures var o := Opening(mode, model);
      match KindOf(mode, model)
      case Unspecified => o == "<cpu>"
      case Custom => |o| > 16 && o[4] == ' ' && o[11] == 'c'
      case HostModel => |o| > 16 && o[4] == ' ' && o[11] == 'h' && o[16] == 'm'
      case HostPassthrough => |o| > 16 && o[4] == ' ' && o[11] == 'h' && o[16] == 'p'
  {
    var o := Opening(mode, model);
    match KindOf(mode, model)
    case Custom =>
      assert o == CpuModeAttr + ("custom' match='exact'>" + "<model fallback='allow'>" + model.value + "</model>");
    case HostModel =>
      assert o == CpuModeAttr + ("host-model'>" + "<model fallback='allow'></model>");
    case HostPassthrough =>
    case Unspecified =>
  }

  lemma TopologyInjective(s1: int, c1: int, s2: int, c2: int)
    requires TopologyElement(s1, c1) == TopologyElement(s2, c2)
    ensures s1 == s2 && c1 == c2
  {
    var tail := "' threads='1' />";
    IntToStringNoQuote(s1);
    IntToStringNoQuote(s2);
    IntToStringNoQuote(c1);
    IntToStringNoQuote(c2);
    QuotedValueUnique("<topology sockets='", IntToString(s1), "' cores='" + IntToString(c1) + tail,
                      IntToString(s2), "' cores='" + IntToString(c2) + tail);
    IntToStringInjective(s1, s2);
    QuotedValueUnique("' cores='", IntToString(c1), tail, IntToString(c2), tail);
    IntToStringInjective(c1, c2);
  }

  lemma TopologyShape(s: int, c: int)
    ensures Sig(TopologyElement(s, c)) == ('t', 'o', 'p')
  {
  }

  lemma FeatureShape(f: Option<string>)
    ensures Sig(FeatureElement(f)) == ('f', 'e', 'a')
  {
  }

  lemma OpeningShape(mode: Option<string>, model: Option<string>)
    ensures Sig(Opening(mode, model)).0 == 'c'
  {
    OpeningMark(mode, model);
  }

  /** The topology is rendered exactly when both counts are positive, with those counts
      and a single thread per core. */
  lemma TopologyIff(c: CpuModeDef, s: int, k: int)
    ensures TopologyElement(s, k) in c.Lines() <==> c.sockets > 0 && c.coresPerSocket > 0 && s == c.sockets && k == c.coresPerSocket
  {
    if TopologyElement(s, k) in c.Lines() {
      TopologyShown(c, s, k);
    }
  }

  lemma TopologyShown(c: CpuModeDef, s: int, k: int)
    requires TopologyElement(s, k) in c.Lines()
    ensures c.sockets > 0 && c.coresPerSocket > 0 && s == c.sockets && k == c.coresPerSocket
  {
    var e := TopologyElement(s, k);
    var fs := FeatureLines(c.FeatureList());
    assert c.Lines() == [Opening(c.mode, c.model)] + fs + c.TopologyLines() + ["</cpu>"];
    TopologyShape(s, k);
    OpeningShape(c.mode, c.model);
    assert forall f :: Sig(FeatureElement(f)) == ('f', 'e', 'a') by {
      forall f {
        FeatureShape(f);
      }
    }
    assert e !in fs;
    assert e in c.TopologyLines();
    TopologyInjective(s, k, c.sockets as int, c.coresPerSocket as int);
  }

  lemma FeatureShown(c: CpuModeDef, f: Option<string>)
    requires FeatureElement(f) in c.Lines()
    ensures exists g :: g in c.FeatureList() && OrNull(g) == OrNull(f)
  {
    var e := FeatureElement(f);
    var fs := FeatureLines(c.FeatureList());
    assert c.Lines() == [Opening(c.mode, c.model)] + fs + c.TopologyLines() + ["</cpu>"];
    FeatureShape(f);
    OpeningShape(c.mode, c.model);
    if c.TopologyLines() != [] {
      TopologyShape(c.sockets as int, c.coresPerSocket as int);
    }
    assert e in fs;
    var i :| 0 <= i < |fs| && fs[i] == e;
    var g := c.FeatureList()[i];
    MiddleUnique("<feature policy='require' name='", OrNull(f), OrNull(g), "'/>");
  }

  /** A feature is required exactly when it is in the list (a null entry reads "null"). */
  lemma FeatureIff(c: CpuModeDef, f: Option<string>)
    ensures FeatureElement(f) in c.Lines() <==> exists g :: g in c.FeatureList() && OrNull(g) == OrNull(f)
  {
    if FeatureElement(f) in c.Lines() {
      FeatureShown(c, f);
    }
    if g :| g in c.FeatureList() && OrNull(g) == OrNull(f) {
      var i :| 0 <= i < |c.FeatureList()| && c.FeatureList()[i] == g;
      var fs := FeatureLines(c.FeatureList());
      assert fs[i] == FeatureElement(f);
      assert c.Lines() == [Opening(c.mode, c.model)] + fs + c.TopologyLines() + ["</cpu>"];
    }
  }

  /** The features keep the order of the list. */
  lemma FeatureOrder(c: CpuModeDef, i: nat)
    requires i < |c.FeatureList()|
    ensures c.Lines()[1 + i] == FeatureElement(c.FeatureList()[i])
  {
  }
}
