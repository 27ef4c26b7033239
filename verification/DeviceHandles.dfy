/**
 Device handle arrays: how scripts/gen_handles.py reads the arrays of the first link and writes those of the second, and how
 include/device.h reads them back.
 */
module DeviceHandles {
  import opened Lists
  import DeviceGraph

  const SEP := -32768
  const ENDS := 32767

  predicate Plain(h: int) { h != SEP && h != ENDS }

  ghost predicate AllPlain(hs: seq<int>) { forall i :: 0 <= i < |hs| ==> Plain(hs[i]) }

  // ----- Reading the arrays of the first link -----

  datatype Deps = Deps(dev: seq<int>, ext: seq<int>)

  /** What follows the first entry: device dependencies, and behind a separator the others, up to the end mark. */
  function Parsed(hv: seq<int>, i: nat, deps: Deps, inExt: bool): Deps
    decreases |hv| - i
  {
    if i >= |hv| || hv[i] == ENDS then deps
    else if hv[i] == SEP then Parsed(hv, i + 1, deps, true)
    else if inExt then Parsed(hv, i + 1, deps.(ext := deps.ext + [hv[i]]), true)
    else Parsed(hv, i + 1, deps.(dev := deps.dev + [hv[i]]), false)
  }

  method Parse(hv: seq<int>) returns (deps: Deps)
    ensures deps == Parsed(hv, 1, Deps([], []), false)
    ensures AllPlain(deps.dev) && AllPlain(deps.ext)
  {
    deps := Deps([], []);
    var inExt := false;
    var i := 1;
    while i < |hv|
      invariant i >= 1
      invariant Parsed(hv, i, deps, inExt) == Parsed(hv, 1, Deps([], []), false)
      invariant AllPlain(deps.dev) && AllPlain(deps.ext)
    {
      var h := hv[i];
      if h == ENDS {
        break;
      }
      if h == SEP {
        inExt := true;
      } else if inExt {
        deps := deps.(ext := deps.ext + [h]);
      } else {
        deps := deps.(dev := deps.dev + [h]);
      }
      i := i + 1;
    }
  }

  lemma {:induction false} ParsedRun(hv: seq<int>, i: nat, part: seq<int>, deps: Deps, inExt: bool)
    requires AllPlain(part) && i + |part| <= |hv| && hv[i..i + |part|] == part
    ensures Parsed(hv, i, deps, inExt) ==
      Parsed(hv, i + |part|, if inExt then deps.(ext := deps.ext + part) else deps.(dev := deps.dev + part), inExt)
    decreases |part|
  {
    if part == [] {
      assert deps.dev + part == deps.dev && deps.ext + part == deps.ext;
    } else {
      assert hv[i] == part[0];
      var rest := part[1..];
      assert hv[i + 1..i + 1 + |rest|] == rest;
      var next := if inExt then deps.(ext := deps.ext + [part[0]]) else deps.(dev := deps.dev + [part[0]]);
      ParsedRun(hv, i + 1, rest, next, inExt);
      assert deps.dev + part == deps.dev + [part[0]] + rest && deps.ext + part == deps.ext + [part[0]] + rest;
    }
  }

  /** An array laid out as the first link does it is read back exactly, whatever follows the end mark. */
  lemma ParsedLayout(ordinal: int, dev: seq<int>, ext: seq<int>, junk: seq<int>)
    requires AllPlain(dev) && AllPlain(ext)
    ensures Parsed([ordinal] + dev + [SEP] + ext + [ENDS] + junk, 1, Deps([], []), false) == Deps(dev, ext)
  {
    var hv := [ordinal] + dev + [SEP] + ext + [ENDS] + junk;
    var a := 1 + |dev|;
    assert hv[1..a] == dev;
    ParsedRun(hv, 1, dev, Deps([], []), false);
    assert hv[a] == SEP;
    assert hv[a + 1..a + 1 + |ext|] == ext;
    ParsedRun(hv, a + 1, ext, Deps([] + dev, []), true);
    assert hv[a + 1 + |ext|] == ENDS;
    assert [] + dev == dev && [] + ext == ext;
  }

  // ----- Writing and reading back -----

  function Ends(n: nat): seq<int> { if n == 0 then [] else [ENDS] + Ends(n - 1) }

  /** The new array, as long as the old one; none if there is no room for an end mark. */
  function Encoded(dev: seq<int>, ext: seq<int>, length: nat): Option<seq<int>> {
    var hdls := dev + (if ext == [] then [] else [SEP] + ext);
    if length <= |hdls| then None else Some(hdls + Ends(length - |hdls|))
  }

  method Encode(dev: seq<int>, ext: seq<int>, length: nat) returns (r: Option<seq<int>>)
    ensures r == Encoded(dev, ext, length)
  {
    var hdls := dev;
    if |ext| > 0 {
      hdls := hdls + [SEP];
      hdls := hdls + ext;
    }
    assert hdls == dev + (if ext == [] then [] else [SEP] + ext);
    var padding := length - |hdls|;
    if padding <= 0 {
      return None;
    }
    ghost var whole := hdls + Ends(padding);
    while padding > 0
      invariant padding >= 0 && hdls + Ends(padding) == whole
    {
      assert hdls + Ends(padding) == (hdls + [ENDS]) + Ends(padding - 1);
      hdls := hdls + [ENDS];
      padding := padding - 1;
    }
    assert hdls == whole;
    return Some(hdls);
  }

  function Decoded(rv: seq<int>): seq<int> {
    if rv == [] || !Plain(rv[0]) then [] else [rv[0]] + Decoded(rv[1..])
  }

  /** The reading loop finds the same handles. */
  lemma {:induction false} DecodedIs(rv: seq<int>, count: nat)
    requires count < |rv| && !Plain(rv[count]) && AllPlain(rv[..count])
    ensures Decoded(rv) == rv[..count]
  {
    if count > 0 {
      assert Plain(rv[..count][0]);
      var rest := rv[1..];
      var front := rest[..count - 1];
      forall i | 0 <= i < |front| ensures Plain(front[i]) {
        assert front[i] == rv[..count][i + 1];
      }
      DecodedIs(rest, count - 1);
      assert rv[..count] == [rv[0]] + front;
    }
  }

  /** How many handles come before the first mark; nothing for a device without an array.  An array must hold a mark. */
  method RequiredHandles(handles: Option<seq<int>>) returns (count: Option<nat>)
    requires handles.Some? ==> exists i :: 0 <= i < |handles.value| && !Plain(handles.value[i])
    ensures count.Some? <==> handles.Some?
    ensures handles.Some? ==> count.value < |handles.value| && handles.value[..count.value] == Decoded(handles.value)
  {
    if handles.None? {
      return None;
    }
    var rv := handles.value;
    var i := 0;
    while rv[i] != ENDS && rv[i] != SEP
      invariant 0 <= i < |rv| && forall k :: 0 <= k < i ==> Plain(rv[k])
      decreases |rv| - i
    {
      i := i + 1;
    }
    DecodedIs(rv, i);
    return Some(i);
  }

  lemma {:induction false} DecodedPlain(rv: seq<int>)
    ensures AllPlain(Decoded(rv))
  {
    if rv != [] && Plain(rv[0]) {
      DecodedPlain(rv[1..]);
    }
  }

  lemma {:induction false} DecodedFront(dev: seq<int>, tail: seq<int>)
    requires AllPlain(dev) && tail != [] && !Plain(tail[0])
    ensures Decoded(dev + tail) == dev
  {
    if dev == [] {
      assert dev + tail == tail;
    } else {
      assert (dev + tail)[1..] == dev[1..] + tail;
      DecodedFront(dev[1..], tail);
    }
  }

  lemma {:induction false} EndsAll(n: nat)
    ensures |Ends(n)| == n && forall i :: 0 <= i < n ==> Ends(n)[i] == ENDS
  {
    if n > 0 {
      EndsAll(n - 1);
    }
  }

  /** Reading returns exactly the dependencies that were written if and only if none of them looks like a mark. */
  lemma RoundTrip(dev: seq<int>, ext: seq<int>, length: nat)
    requires Encoded(dev, ext, length).Some?
    ensures Decoded(Encoded(dev, ext, length).value) == dev <==> AllPlain(dev)
    ensures |Encoded(dev, ext, length).value| == length
    ensures !Plain(Encoded(dev, ext, length).value[length - 1])
  {
    var hdls := dev + (if ext == [] then [] else [SEP] + ext);
    var n := length - |hdls|;
    var arr := Encoded(dev, ext, length).value;
    EndsAll(n);
    assert arr[length - 1] == Ends(n)[n - 1];
    var tail := (if ext == [] then [] else [SEP] + ext) + Ends(n);
    assert arr == dev + tail;
    if AllPlain(dev) {
      DecodedFront(dev, tail);
    }
    DecodedPlain(arr);
  }

  // ----- Handles and devices -----

  /** The value of an integer kept in 16 bits, two's complement. */
  function Int16(x: int): int {
    var r := x % 65536;
    if r < 32768 then r else r - 65536
  }

  /** The handle of the device at index `i` of the device table. */
  function HandleOf(i: nat): int { Int16(1 + Int16(i)) }

  function FromHandle(h: int, devices: nat): Option<nat> {
    if h > 0 && h <= devices then Some(h - 1) else None
  }

  /** A device is found again from its handle if and only if the handle fits, and a handle from its device. */
  lemma HandleInverse(i: nat, h: int, devices: nat)
    ensures i < devices ==> (FromHandle(HandleOf(i), devices) == Some(i) <==> i < ENDS)
    ensures i < ENDS ==> HandleOf(i) == 1 + i
    ensures h <= ENDS && FromHandle(h, devices).Some? ==> HandleOf(FromHandle(h, devices).value) == h
  {
  }

  // ----- From devicetree to devices -----

  /** The handles of some nodes as the array holds them, in the order in which the set of nodes is walked. */
  function HandlesOf(nodes: seq<nat>, device: map<nat, nat>): (r: seq<int>)
    requires forall n :: n in nodes ==> n in device
    ensures |r| == |nodes| && forall i :: 0 <= i < |nodes| ==> r[i] == Int16(1 + device[nodes[i]])
  {
    seq(|nodes|, i requires 0 <= i < |nodes| => Int16(1 + device[nodes[i]]))
  }

  /** Some handle stands for device `x`. */
  ghost predicate Names(read: seq<int>, devices: nat, x: nat) {
    exists i :: 0 <= i < |read| && FromHandle(read[i], devices) == Some(x)
  }

  /** Device `x` is that of a node which `n` requires. */
  ghost predicate RequiresDevice(depends: seq<set<nat>>, used: set<nat>, device: map<nat, nat>, n: nat, x: nat) {
    exists d: nat :: DeviceGraph.Requires(depends, used, n, d) && d in device && device[d] == x
  }

  lemma {:induction false} DecodedBounds(rv: seq<int>)
    requires forall i :: 0 <= i < |rv| ==> -32768 <= rv[i] <= ENDS
    ensures forall i :: 0 <= i < |Decoded(rv)| ==> Decoded(rv)[i] < ENDS
  {
    if rv != [] && Plain(rv[0]) {
      DecodedBounds(rv[1..]);
    }
  }

  lemma EncodedBounds(dev: seq<int>, ext: seq<int>, length: nat)
    requires Encoded(dev, ext, length).Some?
    requires forall i :: 0 <= i < |dev| ==> -32768 <= dev[i] <= ENDS
    requires forall i :: 0 <= i < |ext| ==> -32768 <= ext[i] <= ENDS
    ensures var r := Encoded(dev, ext, length).value; forall i :: 0 <= i < |r| ==> -32768 <= r[i] <= ENDS
  {
    EndsAll(length - |dev + (if ext == [] then [] else [SEP] + ext)|);
  }

  lemma AllFound(depends: seq<set<nat>>, used: set<nat>, n: nat, nodes: seq<nat>, device: map<nat, nat>, devices: nat)
    requires forall d: nat :: d in nodes <==> DeviceGraph.Requires(depends, used, n, d)
    requires forall d :: d in nodes ==> d in device && device[d] < devices && device[d] < ENDS - 1
    ensures AllPlain(HandlesOf(nodes, device))
    ensures forall x: nat :: Names(HandlesOf(nodes, device), devices, x) <==> RequiresDevice(depends, used, device, n, x)
  {
    hide DeviceGraph.Requires;
    var read := HandlesOf(nodes, device);
    forall i | 0 <= i < |read| ensures FromHandle(read[i], devices) == Some(device[nodes[i]]) && Plain(read[i]) {
      assert nodes[i] in nodes;
    }
    forall x: nat ensures Names(read, devices, x) <==> RequiresDevice(depends, used, device, n, x) {
      if Names(read, devices, x) {
        var i :| 0 <= i < |read| && FromHandle(read[i], devices) == Some(x);
        assert nodes[i] in nodes && device[nodes[i]] == x;
      }
      if RequiresDevice(depends, used, device, n, x) {
        var d: nat :| DeviceGraph.Requires(depends, used, n, d) && d in device && device[d] == x;
        assert d in nodes;
        var i :| 0 <= i < |nodes| && nodes[i] == d;
        assert FromHandle(read[i], devices) == Some(x);
      }
    }
  }

  lemma IsRequired(depends: seq<set<nat>>, used: set<nat>, device: map<nat, nat>, n: nat, d: nat)
    requires DeviceGraph.Requires(depends, used, n, d) && d in device
    ensures RequiresDevice(depends, used, device, n, device[d])
  {
  }

  lemma NotFound(read: seq<int>, devices: nat, x: nat)
    requires x >= ENDS - 1 && forall i :: 0 <= i < |read| ==> read[i] < ENDS
    ensures !Names(read, devices, x)
  {
  }

  /** What is read is below the end mark, and is what was written if that has no marks. */
  lemma ReadPart(dev: seq<int>, ext: seq<int>, length: nat)
    requires Encoded(dev, ext, length).Some?
    requires forall i :: 0 <= i < |dev| ==> -32768 <= dev[i] <= ENDS
    requires forall i :: 0 <= i < |ext| ==> -32768 <= ext[i] <= ENDS
    ensures AllPlain(dev) ==> Decoded(Encoded(dev, ext, length).value) == dev
    ensures forall i :: 0 <= i < |Decoded(Encoded(dev, ext, length).value)| ==> Decoded(Encoded(dev, ext, length).value)[i] < ENDS
  {
    RoundTrip(dev, ext, length);
    EncodedBounds(dev, ext, length);
    DecodedBounds(Encoded(dev, ext, length).value);
  }

  /**
   Take the nodes that a used node requires, in any order, write their handles into an array of 16-bit numbers and read it
   back: the handles found stand for exactly the devices of the required nodes, if and only if the handle of every required
   device is below the end mark.
   */
  lemma EndToEnd(depends: seq<set<nat>>, used: set<nat>, n: nat, nodes: seq<nat>, device: map<nat, nat>, devices: nat,
                 ext: seq<int>, length: nat)
    requires forall d: nat :: d in nodes <==> DeviceGraph.Requires(depends, used, n, d)
    requires forall d: nat :: DeviceGraph.Requires(depends, used, n, d) ==> d in device && device[d] < devices
    requires forall i :: 0 <= i < |ext| ==> -32768 <= ext[i] <= ENDS
    requires Encoded(HandlesOf(nodes, device), ext, length).Some?
    ensures var read := Decoded(Encoded(HandlesOf(nodes, device), ext, length).value);
      (forall d: nat :: DeviceGraph.Requires(depends, used, n, d) ==> device[d] < ENDS - 1) <==>
      (forall x: nat :: Names(read, devices, x) <==> RequiresDevice(depends, used, device, n, x))
  {
    hide DeviceGraph.Requires, Encoded, Decoded, Names, RequiresDevice, AllPlain;
    var dev := HandlesOf(nodes, device);
    ReadPart(dev, ext, length);
    if forall d: nat :: DeviceGraph.Requires(depends, used, n, d) ==> device[d] < ENDS - 1 {
      AllFound(depends, used, n, nodes, device, devices);
    } else {
      var d: nat :| DeviceGraph.Requires(depends, used, n, d) && device[d] >= ENDS - 1;
      IsRequired(depends, used, device, n, d);
      NotFound(Decoded(Encoded(dev, ext, length).value), devices, device[d]);
    }
  }

  /** The nodes of a set in some order. */
  method Listed(nodes: set<nat>) returns (list: seq<nat>)
    ensures forall d :: d in list <==> d in nodes
    ensures |list| == |nodes|
  {
    list := [];
    var rest := nodes;
    while rest != {}
      invariant rest <= nodes && |list| + |rest| == |nodes|
      invariant forall d :: d in list <==> d in nodes && d !in rest
      decreases |rest|
    {
      var d: nat :| d in rest;
      list := list + [d];
      rest := rest - {d};
    }
  }

  lemma NamesSnoc(read: seq<int>, devices: nat, i: nat)
    requires i < |read|
    ensures forall x: nat :: Names(read[..i + 1], devices, x) <==> Names(read[..i], devices, x) || FromHandle(read[i], devices) == Some(x)
  {
    forall x: nat
      ensures Names(read[..i + 1], devices, x) <==> Names(read[..i], devices, x) || FromHandle(read[i], devices) == Some(x)
    {
      if Names(read[..i + 1], devices, x) {
        var j :| 0 <= j < i + 1 && FromHandle(read[..i + 1][j], devices) == Some(x);
        assert j < i ==> read[..i][j] == read[j];
      }
      if Names(read[..i], devices, x) {
        var j :| 0 <= j < i && FromHandle(read[..i][j], devices) == Some(x);
        assert read[..i + 1][j] == read[j];
      }
      assert read[..i + 1][i] == read[i];
    }
  }

  /**
   The way of one node's dependencies through the build and back: forward them in the graph, write the array for the second
   link, count the handles in front of the first mark, and look the devices up.  None if the first link left no room.
   */
  method RequiredDevices(depends: seq<set<nat>>, used: set<nat>, device: map<nat, nat>, devices: nat, n: nat, ext: seq<int>, length: nat)
    returns (found: Option<set<nat>>)
    requires DeviceGraph.Ordered(depends) && n in used && forall d :: d in used ==> d < |depends| && d in device && device[d] < devices
    requires forall i :: 0 <= i < |ext| ==> -32768 <= ext[i] <= ENDS
    ensures found.None? <==>
      length <= |set d: nat | d in used && DeviceGraph.Requires(depends, used, n, d)| + (if ext == [] then 0 else 1 + |ext|)
    ensures found.Some? ==>
      ((forall d: nat :: DeviceGraph.Requires(depends, used, n, d) ==> device[d] < ENDS - 1) <==>
       (forall x: nat :: x in found.value <==> RequiresDevice(depends, used, device, n, x)))
  {
    var forwarded := DeviceGraph.ForwardAll(depends, used);
    assert forwarded[n] == set d: nat | d in used && DeviceGraph.Requires(depends, used, n, d);
    var nodes := Listed(forwarded[n]);
    hide DeviceGraph.Requires;
    var arr := Encode(HandlesOf(nodes, device), ext, length);
    if arr.None? {
      return None;
    }
    EndToEnd(depends, used, n, nodes, device, devices, ext, length);
    RoundTrip(HandlesOf(nodes, device), ext, length);
    var count := RequiredHandles(arr);
    hide Encoded, Decoded;
    var read := arr.value[..count.value];
    found := Some({});
    for i := 0 to |read|
      invariant found.Some? && forall x: nat :: x in found.value <==> Names(read[..i], devices, x)
    {
      NamesSnoc(read, devices, i);
      var x := FromHandle(read[i], devices);
      if x.Some? {
        found := Some(found.value + {x.value});
      }
    }
    assert read[..|read|] == read;
  }
}
