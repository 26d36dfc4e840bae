/** The small device descriptors: console, serial port, video card, graphics framebuffer,
    input device and shared filesystem, which are fixed once built, and the virtio-serial
    agent channel, whose rendering fills in a default directory. */
module LeafDevices {
  import opened Text

  /** The <source> element naming a host path (console and serial port). */
  function SourcePath(path: string): string {
    "<source path='" + path + "'/>\n"
  }

  /** The <target> element naming a guest port (console and serial port). */
  function TargetPort(port: int): string {
    "<target port='" + IntToString(port) + "'/>\n"
  }

  lemma TargetPortInjective(p: int, q: int)
    requires TargetPort(p) == TargetPort(q)
    ensures p == q
  {
    IntToStringNoQuote(p);
    IntToStringNoQuote(q);
    QuotedValueUnique("<target port='", IntToString(p), "'/>\n", IntToString(q), "'/>\n");
    IntToStringInjective(p, q);
  }

  lemma SourceNotTarget()
    ensures forall s, p :: SourcePath(s) != TargetPort(p)
  {
    forall s, p ensures SourcePath(s) != TargetPort(p) {
      assert SourcePath(s)[1] == 's' && TargetPort(p)[1] == 't';
    }
  }

  /** The optional source and target of a character device: a source only for a path, a
      target only for a port other than -1. */
  function CharDeviceBody(source: Option<string>, port: Int16): seq<string> {
    (if source.Some? then [SourcePath(source.value)] else [])
    + (if port != -1 then [TargetPort(port)] else [])
  }

  /** The target port is rendered exactly when it is not -1, and it carries that port. */
  lemma CharDeviceTargetIff(source: Option<string>, port: Int16, p: int)
    ensures TargetPort(p) in CharDeviceBody(source, port) <==> p == port && port != -1
    ensures source.Some? <==> exists s :: SourcePath(s) in CharDeviceBody(source, port)
  {
    SourceNotTarget();
    if TargetPort(p) in CharDeviceBody(source, port) {
      TargetPortInjective(p, port);
    }
    if source.Some? {
      assert SourcePath(source.value) in CharDeviceBody(source, port);
    }
  }

  /** ConsoleDef: a console of some type, optionally on a tty, fed from a path, on a port. */
  datatype ConsoleDef = ConsoleDef(kind: Option<string>, ttyPath: Option<string>, source: Option<string>, port: Int16) {
    /** The opening tag; the tty attribute follows the type with no space between them. */
    function OpenTag(): string {
      "<console " + "type='" + OrNull(kind) + "'" + (if ttyPath.Some? then "tty='" + ttyPath.value + "'" else "") + ">\n"
    }

    function Lines(): seq<string> {
      [OpenTag()] + CharDeviceBody(source, port) + ["</console>\n"]
    }

    function Xml(): string {
      Join(Lines())
    }
  }

  /** SerialDef: a serial port of some type, fed from a path, on a port. */
  datatype SerialDef = SerialDef(kind: Option<string>, source: Option<string>, port: Int16) {
    function Lines(): seq<string> {
      ["<serial type='" + OrNull(kind) + "'>\n"] + CharDeviceBody(source, port) + ["</serial>\n"]
    }

    function Xml(): string {
      Join(Lines())
    }
  }

  /** A console or serial port renders its target exactly when the port is not -1. */
  lemma ConsoleTargetIff(c: ConsoleDef, p: int)
    ensures TargetPort(p) in c.Lines() <==> p == c.port && c.port != -1
  {
    CharDeviceTargetIff(c.source, c.port, p);
    assert TargetPort(p) != c.OpenTag() by {
      assert TargetPort(p)[1] == 't' && c.OpenTag()[1] == 'c';
    }
    assert TargetPort(p) != "</console>\n" by {
      assert TargetPort(p)[1] == 't';
    }
  }

  lemma SerialTargetIff(s: SerialDef, p: int)
    ensures TargetPort(p) in s.Lines() <==> p == s.port && s.port != -1
  {
    CharDeviceTargetIff(s.source, s.port, p);
    var open := "<serial type='" + OrNull(s.kind) + "'>\n";
    assert TargetPort(p) != open by {
      assert TargetPort(p)[1] == 't' && open[1] == 's';
    }
    assert TargetPort(p) != "</serial>\n" by {
      assert TargetPort(p)[1] == 't';
    }
  }

  /** The tty attribute is glued to the type attribute: the opening tag carries it right
      after the type's closing quote, exactly when a tty path is set. */
  lemma ConsoleTtyPlacement(c: ConsoleDef)
    ensures c.ttyPath.Some? <==> |c.OpenTag()| > |"<console type='" + OrNull(c.kind) + "'>\n"|
    ensures c.ttyPath.Some? ==> c.OpenTag()[|"<console type='" + OrNull(c.kind) + "'"|..][..5] == "tty='"
  {
    if c.ttyPath.Some? {
      var head := "<console " + "type='" + OrNull(c.kind) + "'";
      assert c.OpenTag() == head + ("tty='" + c.ttyPath.value + "'") + ">\n";
      assert |head| == |"<console type='" + OrNull(c.kind) + "'"|;
      assert c.OpenTag()[|head|..][..5] == "tty='";
    }
  }

  /*** Video ***/

  /** The model element of a video card. */
  function VideoModel(model: string, ram: int): string {
    "<model type='" + model + ("' vram='" + IntToString(ram) + "'/>\n")
  }

  /** VideoDef: a video card model and its memory. */
  datatype VideoDef = VideoDef(videoModel: Option<string>, videoRam: Int32) {
    predicate Shown() {
      videoModel.Some? && videoModel.value != "" && videoRam != 0
    }

    function Xml(): string {
      if Shown() then Join(["<video>\n", VideoModel(videoModel.value, videoRam), "</video>\n"]) else ""
    }
  }

  /** A video card renders nothing unless it names a model and has memory; otherwise it
      renders its model and memory, which read back from the element. */
  lemma VideoShownIff(d: VideoDef)
    ensures d.Xml() == "" <==> d.videoModel.None? || d.videoModel.value == "" || d.videoRam == 0
    ensures d.Shown() ==> d.Xml() == "<video>\n" + VideoModel(d.videoModel.value, d.videoRam) + "</video>\n"
  {
    if d.Shown() {
      JoinAppend(["<video>\n"], [VideoModel(d.videoModel.value, d.videoRam), "</video>\n"]);
      JoinAppend([VideoModel(d.videoModel.value, d.videoRam)], ["</video>\n"]);
      assert ["<video>\n"] + [VideoModel(d.videoModel.value, d.videoRam), "</video>\n"]
        == ["<video>\n", VideoModel(d.videoModel.value, d.videoRam), "</video>\n"];
      assert [VideoModel(d.videoModel.value, d.videoRam)] + ["</video>\n"]
        == [VideoModel(d.videoModel.value, d.videoRam), "</video>\n"];
    }
  }

  /** For a quote-free model name, the model element gives back the model and the memory. */
  lemma VideoModelInjective(m: string, r: int, n: string, q: int)
    requires NoQuote(m) && NoQuote(n) && VideoModel(m, r) == VideoModel(n, q)
    ensures m == n && r == q
  {
    var tail := "'/>\n";
    QuotedValueUnique("<model type='", m, "' vram='" + IntToString(r) + tail, n, "' vram='" + IntToString(q) + tail);
    IntToStringNoQuote(r);
    IntToStringNoQuote(q);
    QuotedValueUnique("' vram='", IntToString(r), tail, IntToString(q), tail);
    IntToStringInjective(r, q);
  }

  /*** Graphics ***/

  /** GraphicDef: a framebuffer; the password is stored already escaped for XML. */
  datatype GraphicDef = GraphicDef(kind: Option<string>, port: Int16, autoPort: bool, listenAddr: Option<string>,
                                   passwd: Option<string>, keyMap: Option<string>) {
    /** The port attributes: automatic allocation, or a fixed port unless it is -2. */
    function PortAttributes(): seq<string> {
      if autoPort then [" autoport='yes'"] else if port != -2 then [" port='" + IntToString(port) + "'"] else []
    }

    function ListenAttribute(): string {
      if listenAddr.Some? then " listen='" + listenAddr.value + "'" else " listen=''"
    }

    /** The credential attributes: the password, or else the keymap. */
    function AuthAttributes(): seq<string> {
      if passwd.Some? then [" passwd='" + passwd.value + "'"]
      else if keyMap.Some? then [" _keymap='" + keyMap.value + "'"] else []
    }

    /** The attributes after the type, in order. */
    function Attributes(): seq<string> {
      PortAttributes() + [ListenAttribute()] + AuthAttributes()
    }

    function Xml(): string {
      "<graphics type='" + OrNull(kind) + "'" + Join(Attributes()) + "/>\n"
    }
  }

  /** The constructor: the password goes through the XML escaper (null stays null). The
      escaper belongs to a library outside this model and is a parameter here. */
  function NewGraphicDef(kind: Option<string>, port: Int16, autoPort: bool, listenAddr: Option<string>,
                         passwd: Option<string>, keyMap: Option<string>, escapeXml: string -> string): (g: GraphicDef)
    ensures g.passwd.Some? <==> passwd.Some?
    ensures passwd.Some? ==> g.passwd.value == escapeXml(passwd.value)
    ensures g.kind == kind && g.port == port && g.autoPort == autoPort && g.listenAddr == listenAddr && g.keyMap == keyMap
  {
    GraphicDef(kind, port, autoPort, listenAddr, if passwd.Some? then Some(escapeXml(passwd.value)) else None, keyMap)
  }

  const AutoPortPrefix := " autoport='"
  const PortPrefix := " port='"
  const ListenPrefix := " listen='"
  const PasswdPrefix := " passwd='"
  const KeymapPrefix := " _keymap='"

  /** Each attribute starts with its own name, is there only under its condition, and
      shows the field it stands for. */
  lemma AttributeKind(g: GraphicDef, a: string)
    requires a in g.Attributes()
    ensures || (StartsWith(a, AutoPortPrefix) && g.autoPort && a == AutoPortPrefix + "yes'")
            || (StartsWith(a, PortPrefix) && !g.autoPort && g.port != -2 && a == PortPrefix + IntToString(g.port) + "'")
            || StartsWith(a, ListenPrefix)
            || (StartsWith(a, PasswdPrefix) && g.passwd.Some? && a == PasswdPrefix + g.passwd.value + "'")
            || (StartsWith(a, KeymapPrefix) && g.passwd.None? && g.keyMap.Some? && a == KeymapPrefix + g.keyMap.value + "'")
  {
    if a in g.PortAttributes() {
      PortAttributeKind(g, a);
    } else if a in g.AuthAttributes() {
      AuthAttributeKind(g, a);
    } else {
      assert a == g.ListenAttribute();
      if g.listenAddr.Some? {
        assert a == ListenPrefix + (g.listenAddr.value + "'");
        StartsWithConcat(ListenPrefix, g.listenAddr.value + "'");
      } else {
        assert a == ListenPrefix + "'";
        StartsWithConcat(ListenPrefix, "'");
      }
    }
  }

  lemma PortAttributeKind(g: GraphicDef, a: string)
    requires a in g.PortAttributes()
    ensures || (StartsWith(a, AutoPortPrefix) && g.autoPort && a == AutoPortPrefix + "yes'")
            || (StartsWith(a, PortPrefix) && !g.autoPort && g.port != -2 && a == PortPrefix + IntToString(g.port) + "'")
  {
    if g.autoPort {
      assert a == AutoPortPrefix + "yes'";
      StartsWithConcat(AutoPortPrefix, "yes'");
    } else {
      assert a == PortPrefix + (IntToString(g.port) + "'");
      StartsWithConcat(PortPrefix, IntToString(g.port) + "'");
    }
  }

  lemma AuthAttributeKind(g: GraphicDef, a: string)
    requires a in g.AuthAttributes()
    ensures || (StartsWith(a, PasswdPrefix) && g.passwd.Some? && a == PasswdPrefix + g.passwd.value + "'")
            || (StartsWith(a, KeymapPrefix) && g.passwd.None? && g.keyMap.Some? && a == KeymapPrefix + g.keyMap.value + "'")
  {
    if g.passwd.Some? {
      assert a == PasswdPrefix + (g.passwd.value + "'");
      StartsWithConcat(PasswdPrefix, g.passwd.value + "'");
    } else {
      assert a == KeymapPrefix + (g.keyMap.value + "'");
      StartsWithConcat(KeymapPrefix, g.keyMap.value + "'");
    }
  }

  /** No attribute starts with two of the five names. */
  lemma PrefixesExclusive(a: string)
    ensures StartsWith(a, AutoPortPrefix) ==> !StartsWith(a, PortPrefix) && !StartsWith(a, ListenPrefix)
                                              && !StartsWith(a, PasswdPrefix) && !StartsWith(a, KeymapPrefix)
    ensures StartsWith(a, PortPrefix) ==> !StartsWith(a, ListenPrefix) && !StartsWith(a, PasswdPrefix)
                                          && !StartsWith(a, KeymapPrefix)
    ensures StartsWith(a, ListenPrefix) ==> !StartsWith(a, PasswdPrefix) && !StartsWith(a, KeymapPrefix)
    ensures StartsWith(a, PasswdPrefix) ==> !StartsWith(a, KeymapPrefix)
  {
    if StartsWith(a, AutoPortPrefix) {
      StartsWithAt(a, AutoPortPrefix, 1);
    }
    if StartsWith(a, PortPrefix) {
      StartsWithAt(a, PortPrefix, 1);
      StartsWithAt(a, PortPrefix, 2);
    }
    if StartsWith(a, ListenPrefix) {
      StartsWithAt(a, ListenPrefix, 1);
    }
    if StartsWith(a, PasswdPrefix) {
      StartsWithAt(a, PasswdPrefix, 1);
    }
  }

  /** The attribute of a graphics device that starts with a given name. */
  lemma AttributeOf(g: GraphicDef, a: string)
    requires a in g.Attributes()
    ensures StartsWith(a, AutoPortPrefix) ==> g.autoPort
    ensures StartsWith(a, PortPrefix) ==> !g.autoPort && g.port != -2 && a == PortPrefix + IntToString(g.port) + "'"
    ensures StartsWith(a, PasswdPrefix) ==> g.passwd.Some? && a == PasswdPrefix + g.passwd.value + "'"
    ensures StartsWith(a, KeymapPrefix) ==> g.passwd.None? && g.keyMap.Some? && a == KeymapPrefix + g.keyMap.value + "'"
  {
    AttributeKind(g, a);
    PrefixesExclusive(a);
  }

  /** A password wins over a keymap: the password is rendered whenever it is set, and the
      rendered value is the stored one... */
  lemma GraphicsPasswordIff(g: GraphicDef, p: string)
    ensures HasElement(g.Attributes(), PasswdPrefix) <==> g.passwd.Some?
    ensures PasswdPrefix + p + "'" in g.Attributes() <==> g.passwd == Some(p)
  {
    if HasElement(g.Attributes(), PasswdPrefix) {
      var a :| a in g.Attributes() && StartsWith(a, PasswdPrefix);
      AttributeOf(g, a);
    }
    var shown := PasswdPrefix + p + "'";
    if shown in g.Attributes() {
      assert shown == PasswdPrefix + (p + "'");
      StartsWithConcat(PasswdPrefix, p + "'");
      AttributeOf(g, shown);
      MiddleUnique(PasswdPrefix, p, g.passwd.value, "'");
    }
    if g.passwd.Some? {
      var a := g.AuthAttributes()[0];
      assert a in g.Attributes();
      AuthAttributeKind(g, a);
      PrefixesExclusive(a);
    }
  }

  /** ...and the keymap only when there is no password. */
  lemma GraphicsKeymapIff(g: GraphicDef, k: string)
    ensures HasElement(g.Attributes(), KeymapPrefix) <==> g.passwd.None? && g.keyMap.Some?
    ensures KeymapPrefix + k + "'" in g.Attributes() <==> g.passwd.None? && g.keyMap == Some(k)
  {
    if HasElement(g.Attributes(), KeymapPrefix) {
      var a :| a in g.Attributes() && StartsWith(a, KeymapPrefix);
      AttributeOf(g, a);
    }
    var shown := KeymapPrefix + k + "'";
    if shown in g.Attributes() {
      assert shown == KeymapPrefix + (k + "'");
      StartsWithConcat(KeymapPrefix, k + "'");
      AttributeOf(g, shown);
      MiddleUnique(KeymapPrefix, k, g.keyMap.value, "'");
    }
    if g.passwd.None? && g.keyMap.Some? {
      var a := g.AuthAttributes()[0];
      assert a in g.Attributes();
      AuthAttributeKind(g, a);
      PrefixesExclusive(a);
    }
  }

  /** Automatic port allocation is rendered whenever it is asked for... */
  lemma GraphicsAutoPortIff(g: GraphicDef)
    ensures HasElement(g.Attributes(), AutoPortPrefix) <==> g.autoPort
  {
    if HasElement(g.Attributes(), AutoPortPrefix) {
      var a :| a in g.Attributes() && StartsWith(a, AutoPortPrefix);
      AttributeOf(g, a);
    }
    if g.autoPort {
      var a := g.PortAttributes()[0];
      assert a in g.Attributes();
      PortAttributeKind(g, a);
      PrefixesExclusive(a);
    }
  }

  /** ...and a fixed port only without it, and only when the port is not -2 (none); the
      rendered number is the port. */
  lemma GraphicsPortIff(g: GraphicDef, p: int)
    ensures HasElement(g.Attributes(), PortPrefix) <==> !g.autoPort && g.port != -2
    ensures PortPrefix + IntToString(p) + "'" in g.Attributes() <==> !g.autoPort && g.port != -2 && p == g.port
  {
    if HasElement(g.Attributes(), PortPrefix) {
      var a :| a in g.Attributes() && StartsWith(a, PortPrefix);
      AttributeOf(g, a);
    }
    var shown := PortPrefix + IntToString(p) + "'";
    if shown in g.Attributes() {
      assert shown == PortPrefix + (IntToString(p) + "'");
      StartsWithConcat(PortPrefix, IntToString(p) + "'");
      AttributeOf(g, shown);
      MiddleUnique(PortPrefix, IntToString(p), IntToString(g.port), "'");
      IntToStringInjective(p, g.port);
    }
    if !g.autoPort && g.port != -2 {
      var a := g.PortAttributes()[0];
      assert a in g.Attributes();
      PortAttributeKind(g, a);
      PrefixesExclusive(a);
    }
  }

  /*** Input and filesystem ***/

  /** InputDef: an input device (tablet, mouse) on an optional bus. */
  datatype InputDef = InputDef(kind: Option<string>, bus: Option<string>) {
    function Xml(): string {
      "<input type='" + OrNull(kind) + "'" + (if bus.Some? then " bus='" + bus.value + "'" else "") + "/>\n"
    }
  }

  /** The bus attribute is rendered exactly when a bus is set, and shows that bus. */
  lemma InputBusIff(i: InputDef, b: string)
    ensures i.bus.None? <==> i.Xml() == "<input type='" + OrNull(i.kind) + "'/>\n"
    ensures i.Xml() == "<input type='" + OrNull(i.kind) + "' bus='" + b + "'/>\n" <==> i.bus == Some(b)
  {
    var head := "<input type='" + OrNull(i.kind) + "'";
    var shown := "<input type='" + OrNull(i.kind) + "' bus='" + b + "'/>\n";
    assert shown == head + (" bus='" + b + "'") + "/>\n";
    if i.bus.Some? {
      assert i.Xml() == head + (" bus='" + i.bus.value + "'") + "/>\n";
      if i.Xml() == shown {
        MiddleUnique(head, " bus='" + i.bus.value + "'", " bus='" + b + "'", "/>\n");
        MiddleUnique(" bus='", i.bus.value, b, "'");
      }
    } else {
      assert |i.Xml()| < |shown|;
    }
  }

  /** FilesystemDef: a host directory mounted into the guest. */
  datatype FilesystemDef = FilesystemDef(sourcePath: Option<string>, targetPath: Option<string>) {
    function Lines(): seq<string> {
      ["<filesystem type='mount'>\n",
       "  <source dir='" + OrNull(sourcePath) + "'/>\n",
       "  <target dir='" + OrNull(targetPath) + "'/>\n",
       "</filesystem>\n"]
    }

    function Xml(): string {
      Join(Lines())
    }
  }

  /** The mount lines give back both directories: each has a line of its own. */
  lemma FilesystemLinesInjective(f: FilesystemDef, g: FilesystemDef)
    requires f.Lines() == g.Lines()
    ensures OrNull(f.sourcePath) == OrNull(g.sourcePath) && OrNull(f.targetPath) == OrNull(g.targetPath)
  {
    assert f.Lines()[1] == g.Lines()[1] && f.Lines()[2] == g.Lines()[2];
    MiddleUnique("  <source dir='", OrNull(f.sourcePath), OrNull(g.sourcePath), "'/>\n");
    MiddleUnique("  <target dir='", OrNull(f.targetPath), OrNull(g.targetPath), "'/>\n");
  }

  /*** The agent channel ***/

  /** Where the channel's socket lives when no directory was given. */
  const DefaultChannelDir := "/var/lib/libvirt/qemu"

  /** The fragment for a channel named name whose socket directory is dir. */
  function ChannelXml(name: Option<string>, dir: string): string {
    Join(["<channel type='unix'>\n",
          "<source mode='bind' path='" + dir + "/" + OrNull(name) + ".agent'/>\n",
          "<target type='virtio' name='" + OrNull(name) + ".vport'/>\n",
          "<address type='virtio-serial'/>\n",
          "</channel>\n"])
  }

  /** VirtioSerialDef: the guest agent's unix-socket channel. */
  class VirtioSerialDef {
    const name: Option<string>
    var path: Option<string>

    constructor (name: Option<string>, path: Option<string>)
      ensures this.name == name && this.path == path
    {
      this.name := name;
      this.path := path;
    }

    /** The directory the socket is rendered in. */
    function Dir(): string
      reads this
    {
      path.GetOr(DefaultChannelDir)
    }

    /** toString: renders the channel and, as a side effect, stores the default directory
        when none was set, so a second rendering gives the same text. */
    method ToString() returns (s: string)
      modifies this`path
      ensures s == ChannelXml(name, old(Dir()))
      ensures path == Some(old(Dir())) && Dir() == old(Dir())
      ensures old(path).Some? ==> path == old(path)
    {
      if path.None? {
        path := Some(DefaultChannelDir);
      }
      s := ChannelXml(name, path.value);
    }
  }

  /** Rendering the channel twice gives the same text, and the first rendering already
      shows the directory every later one will. */
  method RenderTwice(c: VirtioSerialDef) returns (first: string, second: string)
    modifies c`path
    ensures first == second == ChannelXml(c.name, old(c.Dir()))
  {
    first := c.ToString();
    second := c.ToString();
  }
}
