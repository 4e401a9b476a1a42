/** Device discovery: the serial ports the operating system lists are sorted
    into bootloaders (the vendor's USB id with product id 0) and nodes (the
    vendor's id with a non-zero product id). */
module Scanner {

  type u16 = x: int | 0 <= x < 0x1_0000

  /** The USB vendor id of the devices this tool talks to. */
  const VENDOR_ID: u16 := 0x3232

  /** `SerialPortType`: only USB ports carry vendor and product ids; PCI,
      Bluetooth and unknown ports are all `OtherPort` here. */
  datatype PortType = UsbPort(vid: u16, pid: u16) | OtherPort

  /** `SerialPortInfo`: a port's name and type. */
  datatype PortInfo = PortInfo(name: string, portType: PortType)

  /** The answer of `available_ports()`. */
  datatype Enumeration = Listed(ports: seq<PortInfo>) | EnumerationFailed

  /** Which of the three filters is run. */
  datatype Selection = Bootloaders | Nodes | NodesAndBootloaders

  /** The test each filter applies to one port. */
  predicate Selects(sel: Selection, p: PortInfo) {
    match p.portType
    case OtherPort => false
    case UsbPort(vid, pid) =>
      vid == VENDOR_ID &&
      match sel
      case Bootloaders => pid == 0
      case Nodes => pid > 0
      case NodesAndBootloaders => true
  }

  /** The ports a filter keeps, in enumeration order. */
  function Kept(ports: seq<PortInfo>, sel: Selection): seq<PortInfo> {
    if ports == [] then []
    else
      var last := ports[|ports| - 1];
      Kept(ports[..|ports| - 1], sel) + (if Selects(sel, last) then [last] else [])
  }

  function Names(ports: seq<PortInfo>): seq<string> {
    if ports == [] then [] else Names(ports[..|ports| - 1]) + [ports[|ports| - 1].name]
  }

  /** The loop the three filters share: walk the enumeration and push the name
      of every port the filter keeps. A failed enumeration gives no names. */
  method Collect(e: Enumeration, sel: Selection) returns (names: seq<string>)
    ensures names == if e.Listed? then Names(Kept(e.ports, sel)) else []
  {
    names := [];
    if e.Listed? {
      var ports := e.ports;
      for i := 0 to |ports|
        invariant names == Names(Kept(ports[..i], sel))
      {
        var k := Kept(ports[..i], sel);
        assert ports[..i + 1][..i] == ports[..i];
        if Selects(sel, ports[i]) {
          assert Kept(ports[..i + 1], sel) == k + [ports[i]];
          assert (k + [ports[i]])[..|k|] == k;
          assert Names(k + [ports[i]]) == Names(k) + [ports[i].name];
          names := names + [ports[i].name];
        } else {
          assert Kept(ports[..i + 1], sel) == k;
        }
      }
      assert ports[..|ports|] == ports;
    }
  }

  method GetBootloaders(e: Enumeration) returns (names: seq<string>)
    ensures names == if e.Listed? then Names(Kept(e.ports, Bootloaders)) else []
  {
    names := Collect(e, Bootloaders);
  }

  method GetNodes(e: Enumeration) returns (names: seq<string>)
    ensures names == if e.Listed? then Names(Kept(e.ports, Nodes)) else []
  {
    names := Collect(e, Nodes);
  }

  method GetNodesAndBootloaders(e: Enumeration) returns (names: seq<string>)
    ensures names == if e.Listed? then Names(Kept(e.ports, NodesAndBootloaders)) else []
  {
    names := Collect(e, NodesAndBootloaders);
  }

  /** Every port is sorted by its ids alone: a port of another vendor, or not
      on USB, is in no class; one of the vendor's ports is in exactly one of
      the two classes, and the combined filter keeps exactly the union. */
  lemma Classification(p: PortInfo)
    ensures Selects(NodesAndBootloaders, p) <==> p.portType.UsbPort? && p.portType.vid == VENDOR_ID
    ensures Selects(Bootloaders, p) <==> Selects(NodesAndBootloaders, p) && p.portType.pid == 0
    ensures Selects(Nodes, p) <==> Selects(NodesAndBootloaders, p) && p.portType.pid != 0
    ensures !(Selects(Bootloaders, p) && Selects(Nodes, p))
  {
  }

  /** A port is kept exactly when it was enumerated and passes the filter. */
  lemma {:induction false} KeptMembers(ports: seq<PortInfo>, sel: Selection, p: PortInfo)
    ensures p in Kept(ports, sel) <==> p in ports && Selects(sel, p)
    decreases |ports|
  {
    if ports != [] {
      var init := ports[..|ports| - 1];
      assert ports == init + [ports[|ports| - 1]];
      KeptMembers(init, sel, p);
    }
  }

  /** `idx` picks the elements of `sub` out of `all`, in increasing positions. */
  predicate Embeds<T(==)>(idx: seq<nat>, sub: seq<T>, all: seq<T>) {
    && |idx| == |sub|
    && (forall k :: 0 <= k < |idx| ==> idx[k] < |all| && sub[k] == all[idx[k]])
    && (forall k, l :: 0 <= k < l < |idx| ==> idx[k] < idx[l])
  }

  /** A filter's output is a subsequence of the enumeration: it keeps order
      and invents nothing. */
  lemma {:induction false} KeptIsSubsequence(ports: seq<PortInfo>, sel: Selection)
    ensures exists idx :: Embeds(idx, Kept(ports, sel), ports)
    decreases |ports|
  {
    if ports == [] {
      assert Embeds([], Kept(ports, sel), ports);
    } else {
      var n := |ports| - 1;
      var init := ports[..n];
      KeptIsSubsequence(init, sel);
      var idx :| Embeds(idx, Kept(init, sel), init);
      if Selects(sel, ports[n]) {
        var idx' := idx + [n];
        assert Embeds(idx', Kept(ports, sel), ports);
      } else {
        assert Embeds(idx, Kept(ports, sel), ports);
      }
    }
  }

  /** Filtering the combined list again gives the bootloader list and the
      node list: both keep the enumeration order. */
  lemma {:induction false} ClassesRefineCombined(ports: seq<PortInfo>)
    ensures Kept(Kept(ports, NodesAndBootloaders), Bootloaders) == Kept(ports, Bootloaders)
    ensures Kept(Kept(ports, NodesAndBootloaders), Nodes) == Kept(ports, Nodes)
    decreases |ports|
  {
    if ports != [] {
      var n := |ports| - 1;
      var last := ports[n];
      var both := Kept(ports[..n], NodesAndBootloaders);
      ClassesRefineCombined(ports[..n]);
      if Selects(NodesAndBootloaders, last) {
        assert (both + [last])[..|both|] == both;
      } else {
        assert Kept(ports, NodesAndBootloaders) == both;
      }
    }
  }

  lemma {:induction false} NamesAppend(a: seq<PortInfo>, b: seq<PortInfo>)
    ensures Names(a + b) == Names(a) + Names(b)
    decreases |b|
  {
    if b == [] {
      assert a + b == a;
    } else {
      assert (a + b)[..|a + b| - 1] == a + b[..|b| - 1];
      NamesAppend(a, b[..|b| - 1]);
    }
  }

  /** The bootloader names and the node names together are the combined
      names, each name as often as it was listed. */
  lemma {:induction false} ClassesPartitionCombined(ports: seq<PortInfo>)
    ensures multiset(Names(Kept(ports, Bootloaders))) + multiset(Names(Kept(ports, Nodes)))
         == multiset(Names(Kept(ports, NodesAndBootloaders)))
    decreases |ports|
  {
    if ports != [] {
      var init := ports[..|ports| - 1];
      var last := ports[|ports| - 1];
      ClassesPartitionCombined(init);
      var boot, node, both := Names(Kept(init, Bootloaders)), Names(Kept(init, Nodes)), Names(Kept(init, NodesAndBootloaders));
      KeptNamesStep(ports, Bootloaders);
      KeptNamesStep(ports, Nodes);
      KeptNamesStep(ports, NodesAndBootloaders);
      Classification(last);
      var one := multiset{last.name};
      assert multiset(boot + [last.name]) == multiset(boot) + one;
      assert multiset(node + [last.name]) == multiset(node) + one;
      assert multiset(both + [last.name]) == multiset(both) + one;
    }
  }

  /** One more enumerated port adds its name to a filter's list exactly when
      the filter keeps it. */
  lemma KeptNamesStep(ports: seq<PortInfo>, sel: Selection)
    requires ports != []
    ensures var last := ports[|ports| - 1];
            Names(Kept(ports, sel))
            == Names(Kept(ports[..|ports| - 1], sel)) + (if Selects(sel, last) then [last.name] else [])
  {
    var last := ports[|ports| - 1];
    var k := Kept(ports[..|ports| - 1], sel);
    if Selects(sel, last) {
      assert Kept(ports, sel) == k + [last];
      assert (k + [last])[..|k|] == k;
    } else {
      assert Kept(ports, sel) == k + [];
      assert k + [] == k;
    }
  }

  /** A name is on a filter's list exactly when some enumerated port with
      that name passes the filter. */
  lemma {:induction false} NameOfKept(ports: seq<PortInfo>, sel: Selection, name: string)
    ensures name in Names(Kept(ports, sel)) <==> exists p :: p in ports && Selects(sel, p) && p.name == name
    decreases |ports|
  {
    if ports != [] {
      var n := |ports| - 1;
      var last := ports[n];
      var init := ports[..n];
      assert ports == init + [last];
      var k := Kept(init, sel);
      if Selects(sel, last) {
        assert Kept(ports, sel) == k + [last];
        assert (k + [last])[..|k|] == k;
        assert Names(Kept(ports, sel)) == Names(k) + [last.name];
      } else {
        assert Kept(ports, sel) == k;
      }
      NameOfKept(init, sel, name);
      if name in Names(Kept(ports, sel)) {
        if Selects(sel, last) && last.name == name {
          assert last in ports;
        } else {
          var p :| p in init && Selects(sel, p) && p.name == name;
          assert p in ports;
        }
      }
      if p :| p in ports && Selects(sel, p) && p.name == name {
        if p != last {
          assert p in init;
        }
      }
    }
  }

  lemma SameNameSamePort(ports: seq<PortInfo>, p: PortInfo, q: PortInfo)
    requires forall i, j :: 0 <= i < j < |ports| ==> ports[i].name != ports[j].name
    requires p in ports && q in ports && p.name == q.name
    ensures p == q
  {
    var i :| 0 <= i < |ports| && ports[i] == p;
    var j :| 0 <= j < |ports| && ports[j] == q;
  }

  /** When the operating system lists every port under its own name, no name
      is both a bootloader and a node. */
  lemma ClassesDisjoint(ports: seq<PortInfo>)
    requires forall i, j :: 0 <= i < j < |ports| ==> ports[i].name != ports[j].name
    ensures forall name :: name in Names(Kept(ports, Bootloaders)) ==> name !in Names(Kept(ports, Nodes))
  {
    forall name | name in Names(Kept(ports, Bootloaders))
      ensures name !in Names(Kept(ports, Nodes))
    {
      NameOfKept(ports, Bootloaders, name);
      NameOfKept(ports, Nodes, name);
      var p :| p in ports && Selects(Bootloaders, p) && p.name == name;
      forall q | q in ports && q.name == name
        ensures q == p
      {
        SameNameSamePort(ports, p, q);
      }
    }
  }
}
