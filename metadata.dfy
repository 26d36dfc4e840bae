/** The domain's <metadata> section (MetadataDef) and the one custom node the agent puts
    in it, the Nuage VSP extension (NuageExtensionDef). */
module Metadata {
  import opened Text

  const NuageHead := "<nuage-extension>\n" + "  <interface mac='"
  const NuageTail := "'></interface>\n" + "</nuage-extension>\n"

  /** What follows the MAC address: the router address and the closing tags. */
  function EntryTail(ip: string): string {
    "' vsp-vr-ip='" + ip + NuageTail
  }

  /** One <nuage-extension> element, for one interface. */
  function Entry(mac: string, ip: string): string {
    NuageHead + mac + EntryTail(ip)
  }

  /** A MAC address without quotes is read back from its element, and so is the router
      address. */
  lemma EntryInjective(mac: string, ip: string, mac': string, ip': string)
    requires NoQuote(mac) && NoQuote(mac')
    requires Entry(mac, ip) == Entry(mac', ip')
    ensures mac == mac' && ip == ip'
  {
    QuotedValueUnique(NuageHead, mac, EntryTail(ip), mac', EntryTail(ip'));
    MiddleUnique("' vsp-vr-ip='", ip, ip', NuageTail);
  }

  /** What a map lookup gives: null for a missing key. */
  function Lookup(m: map<Option<string>, Option<string>>, k: Option<string>): Option<string> {
    if k in m then m[k] else None
  }

  /** The keys after a put: a new key goes last, a key already present keeps its place. */
  function PutKey(keys: seq<Option<string>>, k: Option<string>): seq<Option<string>> {
    if k in keys then keys else keys + [k]
  }

  /** One element per key, in key order, each with the address the key maps to. */
  function EntryLines(macs: seq<Option<string>>, m: map<Option<string>, Option<string>>): (r: seq<string>)
    ensures |r| == |macs|
    ensures forall i :: 0 <= i < |macs| ==> r[i] == Entry(OrNull(macs[i]), OrNull(Lookup(m, macs[i])))
  {
    seq(|macs|, i requires 0 <= i < |macs| => Entry(OrNull(macs[i]), OrNull(Lookup(m, macs[i]))))
  }

  /** After a put, the interface's element shows exactly the new address, provided no two
      MAC addresses print alike and none holds a quote. */
  lemma PutShown(macs: seq<Option<string>>, m: map<Option<string>, Option<string>>,
                 mac: Option<string>, ip: Option<string>, w: string)
    requires NoQuote(OrNull(mac))
    requires forall k | k in macs :: NoQuote(OrNull(k)) && (OrNull(k) == OrNull(mac) ==> k == mac)
    ensures Entry(OrNull(mac), w) in EntryLines(PutKey(macs, mac), m[mac := ip]) <==> w == OrNull(ip)
  {
    var keys, m' := PutKey(macs, mac), m[mac := ip];
    var lines := EntryLines(keys, m');
    var i :| 0 <= i < |keys| && keys[i] == mac;
    assert lines[i] == Entry(OrNull(mac), OrNull(ip));
    if Entry(OrNull(mac), w) in lines {
      var j :| 0 <= j < |lines| && lines[j] == Entry(OrNull(mac), w);
      assert keys[j] in macs || keys[j] == mac;
      EntryInjective(OrNull(keys[j]), OrNull(Lookup(m', keys[j])), OrNull(mac), w);
    }
  }

  /** A put leaves every other interface's element as it was. */
  lemma PutKeepsOthers(macs: seq<Option<string>>, m: map<Option<string>, Option<string>>,
                       mac: Option<string>, ip: Option<string>, k: Option<string>)
    requires k in macs && k != mac
    ensures Entry(OrNull(k), OrNull(Lookup(m, k))) in EntryLines(PutKey(macs, mac), m[mac := ip])
  {
    var keys := PutKey(macs, mac);
    var i :| 0 <= i < |macs| && macs[i] == k;
    assert keys[i] == k;
    assert EntryLines(keys, m[mac := ip])[i] == Entry(OrNull(k), OrNull(Lookup(m, k)));
  }

  class NuageExtensionDef {
    /** The map's keys, in the order they were first put. */
    var macs: seq<Option<string>>
    var addresses: map<Option<string>, Option<string>>

    /** Every key is listed once, and the listed keys are the map's. */
    ghost predicate Valid()
      reads this
    {
      (forall k :: k in addresses <==> k in macs)
      && (forall i, j :: 0 <= i < j < |macs| ==> macs[i] != macs[j])
    }

    constructor ()
      ensures macs == [] && addresses == map[]
      ensures Valid()
    {
      macs, addresses := [], map[];
    }

    /** addNuageExtension: maps the interface's MAC address to the router address,
        replacing an earlier address for the same MAC. */
    method AddNuageExtension(mac: Option<string>, ip: Option<string>)
      modifies this`macs, this`addresses
      ensures macs == PutKey(old(macs), mac) && addresses == old(addresses)[mac := ip]
      ensures old(Valid()) ==> Valid()
    {
      if mac !in macs {
        macs := macs + [mac];
      }
      addresses := addresses[mac := ip];
    }

    function Lines(): seq<string>
      reads this
    {
      EntryLines(macs, addresses)
    }

    function Xml(): string
      reads this
    {
      Join(Lines())
    }

    /** toString: one element per entry of the map. */
    method ToString() returns (s: string)
      ensures s == Xml()
    {
      var lines := Lines();
      s := "";
      var i := 0;
      while i < |macs|
        invariant 0 <= i <= |macs|
        invariant s == Join(lines[..i])
      {
        var mac := macs[i];
        var ip := if mac in addresses then addresses[mac] else None;
        s := s + Entry(OrNull(mac), OrNull(ip));
        JoinSnoc(lines, i);
        i := i + 1;
      }
      assert lines[..i] == lines;
    }
  }

  class MetadataDef {
    /** The custom nodes, keyed by their class; the Nuage extension is the only one. */
    var nuage: NuageExtensionDef?

    constructor ()
      ensures nuage == null
    {
      nuage := null;
    }

    /** getMetadataNode(NuageExtensionDef.class): the node already held, or a new empty one
        that is stored for the next call. */
    method GetNuageNode() returns (n: NuageExtensionDef)
      modifies this`nuage
      ensures old(nuage) != null ==> n == old(nuage) && nuage == old(nuage)
      ensures old(nuage) == null ==> fresh(n) && nuage == n && n.macs == [] && n.addresses == map[]
    {
      if nuage == null {
        n := new NuageExtensionDef();
        nuage := n;
      } else {
        n := nuage;
      }
    }

    function Xml(): string
      reads this, nuage
    {
      "<metadata>\n" + (if nuage != null then nuage.Xml() else "") + "</metadata>\n"
    }

    /** toString: the custom nodes' texts inside the <metadata> element. */
    method ToString() returns (s: string)
      ensures s == Xml()
    {
      s := "<metadata>\n";
      if nuage != null {
        var node := nuage.ToString();
        s := s + node;
      }
      s := s + "</metadata>\n";
    }
  }

  /** Asking for the node twice gives the same node, and the section then holds it. */
  method GetNuageNodeTwice(md: MetadataDef) returns (first: NuageExtensionDef, second: NuageExtensionDef)
    modifies md`nuage
    ensures first == second && md.nuage == first
    ensures old(md.nuage) != null ==> first == old(md.nuage)
  {
    first := md.GetNuageNode();
    second := md.GetNuageNode();
  }
}
