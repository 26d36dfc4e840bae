/** The guest's <features> section (FeaturesDef) and the Hyper-V enlightenments it may
    carry (HyperVEnlightenmentFeatureDef). */
module Features {
  import opened Text

  /** The Hyper-V enlightenments a guest may be given. */
  datatype Enlightenment = Relaxed | Vapic | Spinlocks {
    function Name(): string {
      match this
      case Relaxed => "relaxed"
      case Vapic => "vapic"
      case Spinlocks => "spinlocks"
    }
  }

  /** The order the enlightenments are rendered in. They are kept in a Java HashMap keyed by
      name; with the default 16-slot table their names fall in slots 0, 3 and 12, so the
      map is always walked in this order, whatever order they were set in. */
  const RenderOrder: seq<Enlightenment> := [Relaxed, Vapic, Spinlocks]

  /** Enlight.isValidFeature: the name of an enlightenment; null is not. */
  predicate IsValidFeature(name: Option<string>) {
    name.Some? && name.value in {"relaxed", "vapic", "spinlocks"}
  }

  lemma ValidFeatureNames(name: Option<string>)
    ensures IsValidFeature(name) <==> exists e: Enlightenment :: Some(e.Name()) == name
  {
    if IsValidFeature(name) {
      var e := if name.value == "relaxed" then Relaxed else if name.value == "vapic" then Vapic else Spinlocks;
      assert Some(e.Name()) == name;
    }
  }

  /** The spinlock retry count a new descriptor starts with, and the least it can have. */
  const DefaultRetries: int := 4096

  /** The retry attribute: only spinlocks carries one. */
  function RetriesAttr(name: string, retries: int): string {
    if name == "spinlocks" then " retries='" + IntToString(retries) + "'" else ""
  }

  /** One enlightenment and its state. */
  function EntryLine(name: string, value: string, retries: int): string {
    "<" + name + " state='" + value + "'" + RetriesAttr(name, retries) + "/>\n"
  }

  /** The enlightenments of features present, in the given order. */
  function EntriesOf(order: seq<Enlightenment>, features: map<string, string>, retries: int): (r: seq<string>)
    ensures |r| <= |order|
    ensures forall l | l in r :: exists e :: e in order && e.Name() in features && l == EntryLine(e.Name(), features[e.Name()], retries)
  {
    if order == [] then []
    else
      var rest := EntriesOf(order[1..], features, retries);
      var e := order[0];
      if e.Name() in features then [EntryLine(e.Name(), features[e.Name()], retries)] + rest else rest
  }

  lemma {:induction false} EntriesOfComplete(order: seq<Enlightenment>, features: map<string, string>, retries: int, e: Enlightenment)
    requires e in order && e.Name() in features
    ensures EntryLine(e.Name(), features[e.Name()], retries) in EntriesOf(order, features, retries)
  {
    if order[0] != e {
      EntriesOfComplete(order[1..], features, retries, e);
    }
  }

  class HyperVEnlightenmentFeatureDef {
    var features: map<string, string>
    var retries: Int32

    /** Only enlightenments are present, each switched on, and the retry count never
        drops below its default. */
    ghost predicate Valid()
      reads this
    {
      retries >= DefaultRetries && forall k | k in features :: IsValidFeature(Some(k)) && features[k] == "on"
    }

    constructor ()
      ensures features == map[] && retries == DefaultRetries && Valid()
    {
      features := map[];
      retries := DefaultRetries;
    }

    /** Switches an enlightenment on; a request to switch one off, or for a name that is
        not an enlightenment, changes nothing. */
    method SetFeature(name: Option<string>, on: bool)
      modifies this`features
      ensures features == if on && IsValidFeature(name) then old(features)[name.value := "on"] else old(features)
      ensures old(Valid()) ==> Valid()
    {
      if on && IsValidFeature(name) {
        features := features[name.value := "on"];
      }
    }

    /** The retry count only ever grows. */
    method SetRetries(retry: Int32)
      modifies this`retries
      ensures retries == if retry >= old(retries) then retry else old(retries)
      ensures retries >= old(retries)
      ensures old(Valid()) ==> Valid()
    {
      if retry >= retries {
        retries := retry;
      }
    }

    function Entries(): seq<string>
      reads this
    {
      EntriesOf(RenderOrder, features, retries)
    }

    function Lines(): seq<string>
      reads this
    {
      ["<hyperv>\n"] + Entries() + ["</hyperv>\n"]
    }

    function Xml(): string
      reads this
    {
      Join(Lines())
    }

    /** toString: the enlightenments present, walked in the map's order. */
    method ToString() returns (s: string)
      ensures s == Xml()
    {
      var body := "";
      var i := 0;
      while i < |RenderOrder|
        invariant 0 <= i <= |RenderOrder|
        invariant body == Join(EntriesOf(RenderOrder[..i], features, retries))
      {
        var e := RenderOrder[i];
        EntriesOfSnoc(RenderOrder, features, retries, i);
        if e.Name() in features {
          body := body + EntryLine(e.Name(), features[e.Name()], retries);
        }
        i := i + 1;
      }
      assert RenderOrder[..i] == RenderOrder;
      s := "<hyperv>\n" + body + "</hyperv>\n";
      HyperVJoin(this);
    }
  }

  /** Walking one more enlightenment adds its entry when it is present. */
  lemma {:induction false} EntriesOfSnoc(order: seq<Enlightenment>, features: map<string, string>, retries: int, i: nat)
    requires i < |order|
    ensures Join(EntriesOf(order[..i + 1], features, retries)) ==
      Join(EntriesOf(order[..i], features, retries))
      + (if order[i].Name() in features then EntryLine(order[i].Name(), features[order[i].Name()], retries) else "")
    decreases i
  {
    var e := order[i];
    var line := if e.Name() in features then [EntryLine(e.Name(), features[e.Name()], retries)] else [];
    EntriesOfAppend(order[..i], [e], features, retries);
    assert order[..i] + [e] == order[..i + 1];
    assert EntriesOf([e], features, retries) == line by {
      assert [e][1..] == [];
    }
    JoinAppend(EntriesOf(order[..i], features, retries), line);
    if line != [] {
      assert Join(line) == line[0] by {
        assert line[..0] == [];
      }
    }
  }

  lemma {:induction false} EntriesOfAppend(a: seq<Enlightenment>, b: seq<Enlightenment>, features: map<string, string>, retries: int)
    ensures EntriesOf(a + b, features, retries) == EntriesOf(a, features, retries) + EntriesOf(b, features, retries)
  {
    if a != [] {
      EntriesOfAppend(a[1..], b, features, retries);
      assert (a + b)[1..] == a[1..] + b;
    } else {
      assert a + b == b;
    }
  }

  lemma HyperVJoin(h: HyperVEnlightenmentFeatureDef)
    ensures h.Xml() == "<hyperv>\n" + Join(h.Entries()) + "</hyperv>\n"
  {
    JoinAppend(["<hyperv>\n"] + h.Entries(), ["</hyperv>\n"]);
    JoinAppend(["<hyperv>\n"], h.Entries());
    assert Join(["<hyperv>\n"]) == "<hyperv>\n" by {
      assert ["<hyperv>\n"][..0] == [];
    }
    assert Join(["</hyperv>\n"]) == "</hyperv>\n" by {
      assert ["</hyperv>\n"][..0] == [];
    }
  }

  /** The first characters of an enlightenment's entry name it. */
  lemma EntrySig(e: Enlightenment, value: string, retries: int)
    ensures Sig(EntryLine(e.Name(), value, retries)) == (e.Name()[0], e.Name()[1], e.Name()[2])
  {
  }

  lemma EntryNamesDiffer(e: Enlightenment, f: Enlightenment)
    requires (e.Name()[0], e.Name()[1], e.Name()[2]) == (f.Name()[0], f.Name()[1], f.Name()[2])
    ensures e == f
  {
  }

  lemma EntryShown(h: HyperVEnlightenmentFeatureDef, e: Enlightenment, v: string)
    requires EntryLine(e.Name(), v, h.retries) in h.Entries()
    ensures e.Name() in h.features && v == h.features[e.Name()]
  {
    var l := EntryLine(e.Name(), v, h.retries);
    var f :| f in RenderOrder && f.Name() in h.features && l == EntryLine(f.Name(), h.features[f.Name()], h.retries);
    EntrySig(e, v, h.retries);
    EntrySig(f, h.features[f.Name()], h.retries);
    EntryNamesDiffer(e, f);
    EntryValue(e.Name(), v, h.features[f.Name()], h.retries);
  }

  lemma EntryValue(name: string, v: string, w: string, retries: int)
    requires EntryLine(name, v, retries) == EntryLine(name, w, retries)
    ensures v == w
  {
    EntryLineSplit(name, v, retries);
    EntryLineSplit(name, w, retries);
    MiddleUnique("<" + name + " state='", v, w, "'" + RetriesAttr(name, retries) + "/>\n");
  }

  lemma EntryLineSplit(name: string, value: string, retries: int)
    ensures EntryLine(name, value, retries) == ("<" + name + " state='") + value + ("'" + RetriesAttr(name, retries) + "/>\n")
  {
  }

  /** An enlightenment is rendered, with its state, exactly when it was set. */
  lemma EntryIff(h: HyperVEnlightenmentFeatureDef, e: Enlightenment, v: string)
    ensures EntryLine(e.Name(), v, h.retries) in h.Entries() <==> e.Name() in h.features && v == h.features[e.Name()]
  {
    if EntryLine(e.Name(), v, h.retries) in h.Entries() {
      EntryShown(h, e, v);
    }
    if e.Name() in h.features && v == h.features[e.Name()] {
      EntriesOfComplete(RenderOrder, h.features, h.retries, e);
    }
  }

  /** Only the spinlocks entry carries the retry count: every other entry is just its
      name and state. */
  lemma OnlySpinlocksRetries(name: string, value: string, retries: int)
    ensures EntryLine(name, value, retries) == "<" + name + " state='" + value + "'" + "/>\n" <==> name != "spinlocks"
  {
    if name == "spinlocks" {
      assert |EntryLine(name, value, retries)| > |"<" + name + " state='" + value + "'" + "/>\n"|;
    }
  }

  /** The spinlocks entry reads back the retry count. */
  lemma SpinlocksRetries(value: string, retries: int, other: int)
    requires EntryLine("spinlocks", value, retries) == EntryLine("spinlocks", value, other)
    ensures retries == other
  {
    MiddleUnique("<" + "spinlocks" + " state='" + value + "'", RetriesAttr("spinlocks", retries), RetriesAttr("spinlocks", other), "/>\n");
    var a, b := RetriesAttr("spinlocks", retries), RetriesAttr("spinlocks", other);
    var k := |" retries='"|;
    assert IntToString(retries) == a[k..k + |IntToString(retries)|];
    assert IntToString(other) == b[k..k + |IntToString(other)|];
    IntToStringInjective(retries, other);
  }

  /** The rendering always closes the hyperv element, so it is never empty. */
  lemma HyperVNeverEmpty(h: HyperVEnlightenmentFeatureDef)
    ensures |h.Xml()| >= 10 && h.Xml()[|h.Xml()| - 10..] == "</hyperv>\n"
  {
    HyperVJoin(h);
  }

  /*** FeaturesDef ***/

  /** One plain feature, such as <acpi/>. */
  function FeatureElement(f: Option<string>): string {
    "<" + OrNull(f) + "/>\n"
  }

  function FeatureLines(fs: seq<Option<string>>): (r: seq<string>)
    ensures |r| == |fs|
    ensures forall i :: 0 <= i < |fs| ==> r[i] == FeatureElement(fs[i])
  {
    seq(|fs|, i requires 0 <= i < |fs| => FeatureElement(fs[i]))
  }

  class FeaturesDef {
    var features: seq<Option<string>>
    var hyperV: HyperVEnlightenmentFeatureDef?

    constructor ()
      ensures features == [] && hyperV == null
    {
      features := [];
      hyperV := null;
    }

    method AddFeatures(f: Option<string>)
      modifies this`features
      ensures features == old(features) + [f]
    {
      features := features + [f];
    }

    method AddHyperVFeature(h: HyperVEnlightenmentFeatureDef?)
      modifies this`hyperV
      ensures hyperV == h
    {
      hyperV := h;
    }

    /** The Hyper-V block, when one was added and renders as something. */
    function HyperVLines(): seq<string>
      reads this, hyperV
    {
      if hyperV != null && hyperV.Xml() != "" then [hyperV.Xml()] else []
    }

    function Lines(): seq<string>
      reads this, hyperV
    {
      ["<features>\n"] + FeatureLines(features) + HyperVLines() + ["</features>\n"]
    }

    function Xml(): string
      reads this, hyperV
    {
      Join(Lines())
    }

    /** toString: the plain features in the order added, then the Hyper-V block. */
    method ToString() returns (s: string)
      ensures s == Xml()
    {
      var plain := FeatureLines(features);
      var body := "";
      var i := 0;
      while i < |features|
        invariant 0 <= i <= |features|
        invariant body == Join(plain[..i])
      {
        JoinSnoc(plain, i);
        body := body + FeatureElement(features[i]);
        i := i + 1;
      }
      assert plain[..i] == plain;
      var hv := "";
      if hyperV != null {
        var t := hyperV.ToString();
        if t != "" {
          hv := t;
        }
      }
      assert hv == Join(HyperVLines()) by {
        if HyperVLines() != [] {
          assert HyperVLines()[..0] == [];
        }
      }
      s := "<features>\n" + body + hv + "</features>\n";
      FeaturesJoin(this);
    }
  }

  lemma FeaturesJoin(d: FeaturesDef)
    ensures d.Xml() == "<features>\n" + Join(FeatureLines(d.features)) + Join(d.HyperVLines()) + "</features>\n"
  {
    var a, b, c := ["<features>\n"], FeatureLines(d.features), d.HyperVLines();
    JoinAppend(a + b + c, ["</features>\n"]);
    JoinAppend(a + b, c);
    JoinAppend(a, b);
    assert Join(a) == "<features>\n" by {
      assert a[..0] == [];
    }
    assert Join(["</features>\n"]) == "</features>\n" by {
      assert ["</features>\n"][..0] == [];
    }
    if c != [] {
      assert Join(c) == c[0] by {
        assert c[..0] == [];
      }
    }
  }

  /** A plain feature ends in "/>" and a newline, which neither the section's own tags
    nor the Hyper-V block (ending in "</hyperv>") do. */
  lemma NotSectionTag(f: Option<string>)
    ensures FeatureElement(f) != "<features>\n" && FeatureElement(f) != "</features>\n"
  {
    var e := FeatureElement(f);
    assert e[|e| - 3] == '/';
  }

  lemma NotHyperV(f: Option<string>, x: string)
    requires |x| >= 10 && x[|x| - 10..] == "</hyperv>\n"
    ensures FeatureElement(f) != x
  {
    var e := FeatureElement(f);
    assert e[|e| - 3] == '/';
    assert x[|x| - 3] == x[|x| - 10..][7];
  }

  lemma FeatureInPlain(d: FeaturesDef, f: Option<string>)
    requires FeatureElement(f) in d.Lines()
    ensures FeatureElement(f) in FeatureLines(d.features)
  {
    NotSectionTag(f);
    if d.hyperV != null {
      HyperVNeverEmpty(d.hyperV);
      NotHyperV(f, d.hyperV.Xml());
    }
  }

  lemma FeatureShown(d: FeaturesDef, f: Option<string>)
    requires FeatureElement(f) in d.Lines()
    ensures exists g :: g in d.features && OrNull(g) == OrNull(f)
  {
    FeatureInPlain(d, f);
    var plain := FeatureLines(d.features);
    var i :| 0 <= i < |plain| && plain[i] == FeatureElement(f);
    FeatureElementInjective(f, d.features[i]);
  }

  lemma FeatureElementInjective(f: Option<string>, g: Option<string>)
    requires FeatureElement(f) == FeatureElement(g)
    ensures OrNull(f) == OrNull(g)
  {
    assert OrNull(f) == FeatureElement(f)[1..|FeatureElement(f)| - 3];
    assert OrNull(g) == FeatureElement(g)[1..|FeatureElement(g)| - 3];
  }

  lemma FeaturePresent(d: FeaturesDef, g: Option<string>)
    requires g in d.features
    ensures FeatureElement(g) in d.Lines()
  {
    var i :| 0 <= i < |d.features| && d.features[i] == g;
    var plain := FeatureLines(d.features);
    assert plain[i] == FeatureElement(g);
    assert d.Lines() == ["<features>\n"] + plain + d.HyperVLines() + ["</features>\n"];
  }

  /** A plain feature is rendered exactly when it was added (null renders as "null"). */
  lemma FeatureIff(d: FeaturesDef, f: Option<string>)
    ensures FeatureElement(f) in d.Lines() <==> exists g :: g in d.features && OrNull(g) == OrNull(f)
  {
    if FeatureElement(f) in d.Lines() {
      FeatureShown(d, f);
    }
    if g :| g in d.features && OrNull(g) == OrNull(f) {
      FeaturePresent(d, g);
      assert FeatureElement(g) == FeatureElement(f);
    }
  }

  /** The plain features keep the order they were added in. */
  lemma FeatureOrder(d: FeaturesDef, i: nat)
    requires i < |d.features|
    ensures d.Lines()[1 + i] == FeatureElement(d.features[i])
  {
  }

  /** The Hyper-V block is rendered exactly when one was added. */
  lemma HyperVIff(d: FeaturesDef)
    ensures d.HyperVLines() != [] <==> d.hyperV != null
  {
    if d.hyperV != null {
      HyperVNeverEmpty(d.hyperV);
    }
  }
}
