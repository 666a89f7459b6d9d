/** The `Renderer` of src/renderer.ts: the camera (pan and clamped zoom), the
    insertion-ordered set of nodes, the redraw flag, and the node render pass
    (box sizes, text rows and the canvas transform). Canvas drawing calls are
    not modelled; the pass is modelled by the layout it computes. */
module Rendering {
  import opened Wrappers
  import opened Sequences
  import opened Audio
  import opened Nodes

  // ---------------------------------------------------------------------
  // Camera transform

  datatype Point = Point(x: real, y: real)

  /** An axis-aligned affine map of the canvas, p ↦ (sx·p.x + tx, sy·p.y + ty);
      translations and scalings never leave this form. */
  datatype Transform = Transform(sx: real, sy: real, tx: real, ty: real)

  const Identity := Transform(1.0, 1.0, 0.0, 0.0)

  function Apply(t: Transform, p: Point): Point {
    Point(t.sx * p.x + t.tx, t.sy * p.y + t.ty)
  }

  /** `ctx.translate(dx, dy)`: later points are shifted before the current transform applies. */
  function Translate(t: Transform, dx: real, dy: real): Transform
  {
    Transform(t.sx, t.sy, t.tx + t.sx * dx, t.ty + t.sy * dy)
  }

  /** `ctx.scale(kx, ky)`: later points are scaled before the current transform applies. */
  function Scale(t: Transform, kx: real, ky: real): Transform
  {
    Transform(t.sx * kx, t.sy * ky, t.tx, t.ty)
  }

  /** Translating then applying is applying to the shifted point. */
  lemma ApplyTranslate(t: Transform, dx: real, dy: real, p: Point)
    ensures Apply(Translate(t, dx, dy), p) == Apply(t, Point(p.x + dx, p.y + dy))
  {
    Distribute(t.sx, p.x, dx);
    Distribute(t.sy, p.y, dy);
    assert Apply(Translate(t, dx, dy), p).x == Apply(t, Point(p.x + dx, p.y + dy)).x;
    assert Apply(Translate(t, dx, dy), p).y == Apply(t, Point(p.x + dx, p.y + dy)).y;
  }

  lemma Distribute(a: real, b: real, c: real)
    ensures a * (b + c) == a * b + a * c
  {
  }

  /** Scaling then applying is applying to the scaled point. */
  lemma ApplyScale(t: Transform, kx: real, ky: real, p: Point)
    ensures Apply(Scale(t, kx, ky), p) == Apply(t, Point(kx * p.x, ky * p.y))
  {
    assert (t.sx * kx) * p.x == t.sx * (kx * p.x);
    assert (t.sy * ky) * p.y == t.sy * (ky * p.y);
  }

  datatype Camera = Camera(x: real, y: real, zoom: real)

  /** The transform in force while a node is drawn: translate to the centre of
      the drawing, scale by 1/zoom, translate by the pan, translate by the
      node's position. */
  function NodeTransform(width: real, height: real, cam: Camera, nodeX: real, nodeY: real): Transform
    requires cam.zoom != 0.0
  {
    var centred := Translate(Identity, width / 2.0, height / 2.0);
    var zoomed := Scale(centred, 1.0 / cam.zoom, 1.0 / cam.zoom);
    var panned := Translate(zoomed, cam.x, cam.y);
    Translate(panned, nodeX, nodeY)
  }

  /** A node-local point lands on the screen at the drawing's centre plus its
      world offset from the negated pan, divided by the zoom. */
  lemma WorldToScreen(width: real, height: real, cam: Camera, nodeX: real, nodeY: real, p: Point)
    requires cam.zoom != 0.0
    ensures Apply(NodeTransform(width, height, cam, nodeX, nodeY), p)
            == Point(width / 2.0 + (p.x + nodeX + cam.x) / cam.zoom,
                     height / 2.0 + (p.y + nodeY + cam.y) / cam.zoom)
  {
    var k := 1.0 / cam.zoom;
    var centred := Translate(Identity, width / 2.0, height / 2.0);
    var zoomed := Scale(centred, k, k);
    var panned := Translate(zoomed, cam.x, cam.y);
    var q := Point(p.x + nodeX, p.y + nodeY);
    var q' := Point(q.x + cam.x, q.y + cam.y);
    ApplyTranslate(panned, nodeX, nodeY, p);
    ApplyTranslate(zoomed, cam.x, cam.y, q);
    ApplyScale(centred, k, k, q');
    ApplyTranslate(Identity, width / 2.0, height / 2.0, Point(k * q'.x, k * q'.y));
    DivideByZoom(q'.x, cam.zoom);
    DivideByZoom(q'.y, cam.zoom);
  }

  lemma DivideByZoom(a: real, zoom: real)
    requires zoom != 0.0
    ensures (1.0 / zoom) * a == a / zoom
  {
  }

  // ---------------------------------------------------------------------
  // Zoom

  /** `min(max(z, lo), hi)`. */
  function Clamp(z: real, lo: real, hi: real): (r: real)
    requires lo <= hi
    ensures lo <= r <= hi
    ensures lo <= z <= hi ==> r == z
    ensures z < lo ==> r == lo
    ensures z > hi ==> r == hi
  {
    var atLeast := if z > lo then z else lo;
    if atLeast < hi then atLeast else hi
  }

  /** The zoom after `addZoom(d)` for each `d` of `deltas`, in turn. */
  function ZoomAfter(zoom: real, deltas: seq<real>, lo: real, hi: real): real
    requires lo <= hi
    decreases |deltas|
  {
    if deltas == [] then zoom else ZoomAfter(Clamp(zoom + deltas[0], lo, hi), deltas[1..], lo, hi)
  }

  /** Any sequence of `addZoom` calls keeps the zoom within its bounds. */
  lemma {:induction false} ZoomStaysInRange(zoom: real, deltas: seq<real>, lo: real, hi: real)
    requires lo <= zoom <= hi
    ensures lo <= ZoomAfter(zoom, deltas, lo, hi) <= hi
    decreases |deltas|
  {
    if deltas != [] {
      ZoomStaysInRange(Clamp(zoom + deltas[0], lo, hi), deltas[1..], lo, hi);
    }
  }

  /** From the initial zoom, `addZoom(-50)` saturates exactly at the lower bound. */
  lemma ZoomOutSaturates()
    ensures ZoomAfter(1.0, [-50.0], 0.1, 10.0) == 0.1
  {
  }

  // ---------------------------------------------------------------------
  // Layout of the render pass

  /** What the pass reads of a node: position, name and, when it has
      parameters, its input names (`getParams()`). */
  datatype NodeView = NodeView(x: real, y: real, name: string, inputs: Option<seq<string>>)

  function View(n: Node): (v: NodeView)
    reads n
    ensures v.inputs.Some? <==> n.HasParams()
  {
    NodeView(n.x, n.y, n.name, if n.HasParams() then Some(n.GetParams().value) else None)
  }

  function Views(ns: seq<Node>): (vs: seq<NodeView>)
    reads ns
    ensures |vs| == |ns|
    ensures forall i :: 0 <= i < |ns| ==> vs[i] == View(ns[i])
  {
    if ns == [] then [] else [View(ns[0])] + Views(ns[1..])
  }

  /** A text row: an input name and the y of its baseline, node-local. */
  datatype Row = Row(text: string, baseline: real)

  /** What the pass computes for one node: its transform, the box size, the
      input rows and where the name is written (all node-local). */
  datatype NodeLayout = NodeLayout(
    transform: Transform,
    width: real,
    height: real,
    rows: seq<Row>,
    nameX: real,
    nameY: real)

  /** The drawing the pass runs against; `measure` stands for `ctx.measureText(s).width`. */
  datatype Scene = Scene(width: real, height: real, cam: Camera, fontSize: real, measure: string -> real)

  /** The scan `if (param.length > longest.length) longest = param` over `names`. */
  function LongestName(longest: string, names: seq<string>): (r: string)
    ensures |r| >= |longest|
    ensures r == longest || r in names
    ensures forall i :: 0 <= i < |names| ==> |names[i]| <= |r|
    decreases |names|
  {
    if names == [] then longest
    else LongestName(if |names[0]| > |longest| then names[0] else longest, names[1..])
  }

  /** The comparison is strict, so the scan keeps the earliest name of greatest length,
      and keeps `longest` itself when no name is longer. */
  lemma {:induction false} FirstLongestWins(longest: string, names: seq<string>)
    ensures |LongestName(longest, names)| == |longest| ==> LongestName(longest, names) == longest
    ensures |LongestName(longest, names)| > |longest| ==>
              exists j :: 0 <= j < |names| && LongestName(longest, names) == names[j] &&
                          forall i :: 0 <= i < j ==> |names[i]| < |names[j]|
    decreases |names|
  {
    if names != [] {
      var r := LongestName(longest, names);
      if |names[0]| > |longest| {
        FirstLongestWins(names[0], names[1..]);
        if |r| > |names[0]| {
          var j :| 0 <= j < |names[1..]| && r == names[1..][j] &&
                   forall i :: 0 <= i < j ==> |names[1..][i]| < |names[1..][j]|;
          assert r == names[j + 1];
          forall i | 0 <= i < j + 1 ensures |names[i]| < |names[j + 1]| {
            if i > 0 { assert names[i] == names[1..][i - 1]; }
          }
        } else {
          assert r == names[0];
        }
      } else {
        FirstLongestWins(longest, names[1..]);
        if |r| > |longest| {
          var j :| 0 <= j < |names[1..]| && r == names[1..][j] &&
                   forall i :: 0 <= i < j ==> |names[1..][i]| < |names[1..][j]|;
          assert r == names[j + 1];
          forall i | 0 <= i < j + 1 ensures |names[i]| < |names[j + 1]| {
            if i > 0 { assert names[i] == names[1..][i - 1]; }
          }
        }
      }
    }
  }

  /** Scanning two lists in turn is scanning their concatenation. */
  lemma {:induction false} LongestNameConcat(longest: string, a: seq<string>, b: seq<string>)
    ensures LongestName(longest, a + b) == LongestName(LongestName(longest, a), b)
    decreases |a|
  {
    if a == [] {
      assert a + b == b;
    } else {
      assert (a + b)[1..] == a[1..] + b;
      LongestNameConcat(if |a[0]| > |longest| then a[0] else longest, a[1..], b);
    }
  }

  /** `longestParamName` after a node: only a node with parameters scans its inputs. */
  function CarryLongest(v: NodeView, longest: string): string {
    if v.inputs.Some? then LongestName(longest, v.inputs.value) else longest
  }

  /** The text rows of a node's inputs: row i has its baseline at fontSize·(i + 1 + 0.75). */
  function Rows(inputs: seq<string>, fontSize: real): seq<Row> {
    seq(|inputs|, i requires 0 <= i < |inputs| => Row(inputs[i], fontSize * (i as real + 1.0 + 0.75)))
  }

  /** The layout of one node, given `longestParamName` as it stands after this
      node's scan. */
  function LayoutNode(v: NodeView, longest: string, scene: Scene): NodeLayout
    requires scene.cam.zoom != 0.0
  {
    var paramWidth := if v.inputs.Some? then scene.measure(longest) else 0.0;
    var nameWidth := scene.measure(v.name);
    var width := 0.0 + paramWidth + nameWidth;
    var height := if v.inputs.Some? then (|v.inputs.value| as real + 1.0) * scene.fontSize else scene.fontSize;
    NodeLayout(
      NodeTransform(scene.width, scene.height, scene.cam, v.x, v.y),
      width, height,
      if v.inputs.Some? then Rows(v.inputs.value, scene.fontSize) else [],
      width / 2.0 - nameWidth / 2.0,
      scene.fontSize)
  }

  /** The pass over `views` in order, starting from `longest`; the longest
      name is carried from node to node and never reset. */
  function PassLayout(views: seq<NodeView>, longest: string, scene: Scene): (frame: seq<NodeLayout>)
    requires scene.cam.zoom != 0.0
    ensures |frame| == |views|
  {
    if views == [] then []
    else
      var carried := CarryLongest(views[0], longest);
      [LayoutNode(views[0], carried, scene)] + PassLayout(views[1..], carried, scene)
  }

  /** All input names of the nodes that have parameters, in drawing order. */
  function AllInputs(views: seq<NodeView>): seq<string> {
    if views == [] then []
    else (if views[0].inputs.Some? then views[0].inputs.value else []) + AllInputs(views[1..])
  }

  /** Node i of a pass is laid out with the longest input name of all nodes
      drawn up to and including it. */
  lemma {:induction false} PassAt(views: seq<NodeView>, longest: string, scene: Scene, i: nat)
    requires scene.cam.zoom != 0.0
    requires i < |views|
    ensures PassLayout(views, longest, scene)[i]
            == LayoutNode(views[i], LongestName(longest, AllInputs(views[..i + 1])), scene)
    decreases i
  {
    var carried := CarryLongest(views[0], longest);
    var first := if views[0].inputs.Some? then views[0].inputs.value else [];
    var rest := PassLayout(views[1..], carried, scene);
    assert PassLayout(views, longest, scene) == [LayoutNode(views[0], carried, scene)] + rest;
    if i == 0 {
      assert views[..1] == [views[0]];
      assert AllInputs(views[..1]) == first + AllInputs([]);
      assert first + [] == first;
    } else {
      PassAt(views[1..], carried, scene, i - 1);
      assert views[..i + 1] == [views[0]] + views[1..][..i];
      assert AllInputs(views[..i + 1]) == first + AllInputs(views[1..][..i]);
      LongestNameConcat(longest, first, AllInputs(views[1..][..i]));
    }
  }

  /** The shape of a node's box: one font size tall without parameters, one
      row per input name plus a header row with them; as wide as `longest`
      (when the node has parameters) plus the name; the name centred in the
      header; row k at fontSize·(k + 1.75); a local point p drawn where
      `WorldToScreen` says. */
  ghost predicate ShapedAs(l: NodeLayout, v: NodeView, longest: string, scene: Scene, p: Point)
    requires scene.cam.zoom != 0.0
  {
    && l.height == (if v.inputs.Some? then (|v.inputs.value| + 1) as real * scene.fontSize else scene.fontSize)
    && l.width == (if v.inputs.Some? then scene.measure(longest) else 0.0) + scene.measure(v.name)
    && l.nameX == l.width / 2.0 - scene.measure(v.name) / 2.0
    && l.nameY == scene.fontSize
    && |l.rows| == (if v.inputs.Some? then |v.inputs.value| else 0)
    && (forall k :: 0 <= k < |l.rows| ==>
          l.rows[k] == Row(v.inputs.value[k], scene.fontSize * (k as real + 1.75)))
    && Apply(l.transform, p)
       == Point(scene.width / 2.0 + (p.x + v.x + scene.cam.x) / scene.cam.zoom,
                scene.height / 2.0 + (p.y + v.y + scene.cam.y) / scene.cam.zoom)
  }

  lemma LayoutNodeShape(v: NodeView, longest: string, scene: Scene, p: Point)
    requires scene.cam.zoom != 0.0
    ensures ShapedAs(LayoutNode(v, longest, scene), v, longest, scene, p)
  {
    WorldToScreen(scene.width, scene.height, scene.cam, v.x, v.y, p);
  }

  /** Node i of the pass has the shape of `ShapedAs`, with the longest input
      name of all nodes drawn up to and including it. */
  lemma LayoutOfNode(views: seq<NodeView>, scene: Scene, i: nat, p: Point)
    requires scene.cam.zoom != 0.0
    requires i < |views|
    ensures ShapedAs(PassLayout(views, "", scene)[i], views[i], LongestName("", AllInputs(views[..i + 1])), scene, p)
  {
    var longest := LongestName("", AllInputs(views[..i + 1]));
    PassAt(views, "", scene, i);
    LayoutNodeShape(views[i], longest, scene, p);
  }

  /** The carried name is visible: a node whose own longest input is "audio in"
      is drawn wider when an earlier node had a longer input name. */
  lemma LongestCarriesOver(scene: Scene)
    requires scene.cam.zoom != 0.0
    ensures var biquad := NodeView(0.0, 0.0, "Biquad", Some(["q", "detune", "frequency", "gain", "audio in"]));
            var gain := NodeView(0.0, 0.0, "Gain", Some(["gain", "audio in"]));
            && PassLayout([gain], "", scene)[0].width == scene.measure("audio in") + scene.measure("Gain")
            && PassLayout([biquad, gain], "", scene)[1].width == scene.measure("frequency") + scene.measure("Gain")
  {
    var biquad := NodeView(0.0, 0.0, "Biquad", Some(["q", "detune", "frequency", "gain", "audio in"]));
    var gain := NodeView(0.0, 0.0, "Gain", Some(["gain", "audio in"]));
    assert LongestName("", ["gain", "audio in"]) == "audio in";
    assert LongestName("", ["q", "detune", "frequency", "gain", "audio in"]) == "frequency";
    assert LongestName("frequency", ["gain", "audio in"]) == "frequency";
  }

  // ---------------------------------------------------------------------
  // The renderer

  datatype RendererError = AlreadyAdded | NotContained

  class Renderer {
    /** The node set, in insertion order (the iteration order of a JavaScript `Set`). */
    var nodes: seq<Node>
    var x: real
    var y: real
    var zoom: real
    const zoomMin: real
    const zoomMax: real
    const fontFamily: string
    const fontSize: real
    /** The drawing's redraw flag, raised by `setNeedsRedraw(true)`. */
    var needsRedraw: bool

    ghost predicate Valid()
      reads this
    {
      0.0 < zoomMin <= zoom <= zoomMax && Distinct(nodes)
    }

    /** The nodes as a set. */
    function NodeSet(): set<Node>
      reads this
    {
      Elements(nodes)
    }

    constructor ()
      ensures Valid()
      ensures x == 0.0 && y == 0.0 && zoom == 1.0
      ensures zoomMin == 0.1 && zoomMax == 10.0
      ensures fontFamily == "courier" && fontSize == 20.0
      ensures nodes == []
    {
      x := 0.0;
      y := 0.0;
      zoom := 1.0;
      zoomMin := 0.1;
      zoomMax := 10.0;
      fontFamily := "courier";
      fontSize := 20.0;
      nodes := [];
    }

    method SetX(v: real)
      modifies this`x, this`needsRedraw
      ensures x == v && needsRedraw
    {
      x := v;
      needsRedraw := true;
    }

    method SetY(v: real)
      modifies this`y, this`needsRedraw
      ensures y == v && needsRedraw
    {
      y := v;
      needsRedraw := true;
    }

    /** The zoom setter: the value is clamped to the bounds, silently. */
    method SetZoom(z: real)
      requires Valid()
      modifies this`zoom, this`needsRedraw
      ensures Valid()
      ensures zoom == Clamp(z, zoomMin, zoomMax)
      ensures needsRedraw
    {
      var v := z;
      if v < zoomMin { v := zoomMin; }
      if v > zoomMax { v := zoomMax; }
      zoom := v;
      needsRedraw := true;
    }

    method AddZoom(za: real)
      requires Valid()
      modifies this`zoom, this`needsRedraw
      ensures Valid()
      ensures zoom == Clamp(old(zoom) + za, zoomMin, zoomMax)
      ensures zoom == ZoomAfter(old(zoom), [za], zoomMin, zoomMax)
      ensures needsRedraw
    {
      SetZoom(zoom + za);
    }

    /** Pans by exactly the given amounts; zoom and nodes are left alone. */
    method MoveCenter(movementX: real, movementY: real)
      modifies this`x, this`y, this`needsRedraw
      ensures x == old(x) + movementX && y == old(y) + movementY
      ensures needsRedraw
    {
      x := x + movementX;
      y := y + movementY;
      needsRedraw := true;
    }

    /** `hasNode(n)`: membership by object identity in the node set. */
    predicate HasNode(n: Node)
      reads this
      ensures HasNode(n) <==> n in NodeSet()
    {
      n in nodes
    }

    /** Adds a node not yet present; a present one throws and changes nothing. */
    method AddNode(n: Node) returns (outcome: Outcome<RendererError>)
      requires Valid()
      modifies this`nodes, this`needsRedraw
      ensures Valid()
      ensures outcome.Fail? <==> old(HasNode(n))
      ensures outcome.Fail? ==> outcome.error == AlreadyAdded && nodes == old(nodes) && needsRedraw == old(needsRedraw)
      ensures outcome.Pass? ==> nodes == old(nodes) + [n] && NodeSet() == old(NodeSet()) + {n} && needsRedraw
    {
      if HasNode(n) {
        return Fail(AlreadyAdded);
      }
      nodes := nodes + [n];
      needsRedraw := true;
      outcome := Pass;
    }

    /** Removes a present node; an absent one throws and changes nothing. */
    method RemoveNode(n: Node) returns (outcome: Outcome<RendererError>)
      requires Valid()
      modifies this`nodes, this`needsRedraw
      ensures Valid()
      ensures outcome.Fail? <==> !old(HasNode(n))
      ensures outcome.Fail? ==> outcome.error == NotContained && nodes == old(nodes) && needsRedraw == old(needsRedraw)
      ensures outcome.Pass? ==> nodes == Without(old(nodes), n) && NodeSet() == old(NodeSet()) - {n} && needsRedraw
    {
      if !HasNode(n) {
        return Fail(NotContained);
      }
      WithoutDistinct(nodes, n);
      nodes := Without(nodes, n);
      needsRedraw := true;
      outcome := Pass;
    }

    /** Builds a node from `options`, moves it to the negated pan (whatever
        position the options gave) and adds it. */
    method CreateNode(options: NodeCreateOptions) returns (r: Result<Node, NodeError>)
      requires Valid()
      modifies this`nodes, this`needsRedraw
      ensures Valid()
      ensures r.Failure? <==> CreateThrows(options)
      ensures r.Failure? ==> nodes == old(nodes) && needsRedraw == old(needsRedraw)
      ensures r.Success? ==> fresh(r.value) && r.value !in old(nodes)
      ensures r.Success? ==> nodes == old(nodes) + [r.value] && NodeSet() == old(NodeSet()) + {r.value}
      ensures r.Success? ==> r.value.x == -x && r.value.y == -y && needsRedraw
      ensures r.Success? ==> r.value.Valid() && r.value.name == InitialName(options)
      ensures r.Success? ==> r.value.internalType == options.internalType
      ensures r.Success? ==> r.value.color == StringOr(options.color, DefaultColor)
      ensures r.Success? ==> r.value.textcolor == StringOr(options.textcolor, DefaultTextcolor)
      ensures r.Success? ==> (r.value.HasParams() <==> options.internalType.Some?)
      ensures r.Success? && options.internalType.Some? ==>
                r.value.GetParams() == Success(ParamNames(options.internalType.value) + [AudioIn])
      ensures r.Success? ==> r.value.controls == map[]
    {
      var created := Node.Create(options);
      if created.Failure? {
        return Failure(created.error);
      }
      var n := created.value;
      n.SetX(-x);
      n.SetY(-y);
      var outcome := AddNode(n);
      r := Success(n);
    }

    /** The node render pass: for each node in order, its transform, box size,
        input rows and name position. `longestParamName` is declared once for
        the whole pass, so it is carried from node to node and only grows. */
    method RenderPass(width: real, height: real, measure: string -> real) returns (frame: seq<NodeLayout>)
      requires Valid()
      ensures frame == PassLayout(Views(nodes), "", Scene(width, height, Camera(x, y, zoom), fontSize, measure))
    {
      var scene := Scene(width, height, Camera(x, y, zoom), fontSize, measure);
      var ns := nodes;
      ghost var views := Views(ns);
      var longestParamName := "";
      frame := [];
      var i := 0;
      while i < |ns|
        invariant 0 <= i <= |ns|
        invariant frame + PassLayout(views[i..], longestParamName, scene) == PassLayout(views, "", scene)
      {
        PassStep(views, i, longestParamName, scene);
        assert views[i] == View(ns[i]);
        var layout;
        layout, longestParamName := DrawNode(ns[i], longestParamName, scene);
        frame := frame + [layout];
        i := i + 1;
      }
    }
  }

  /** One step of the pass: the node at `i` is laid out with the carried name
      updated by its inputs, and the rest of the pass carries that name on. */
  lemma PassStep(views: seq<NodeView>, i: nat, longest: string, scene: Scene)
    requires scene.cam.zoom != 0.0
    requires i < |views|
    ensures PassLayout(views[i..], longest, scene)
            == [LayoutNode(views[i], CarryLongest(views[i], longest), scene)]
               + PassLayout(views[i + 1..], CarryLongest(views[i], longest), scene)
  {
    assert views[i..][0] == views[i];
    assert views[i..][1..] == views[i + 1..];
  }

  /** The body of the pass for one node: size, rows and name position, with
      `longest` the `longestParamName` left by the nodes drawn before. */
  method DrawNode(node: Node, longest: string, scene: Scene) returns (layout: NodeLayout, longest': string)
    requires scene.cam.zoom != 0.0
    ensures longest' == CarryLongest(View(node), longest)
    ensures layout == LayoutNode(View(node), longest', scene)
  {
    var fontSize := scene.fontSize;
    var transform := NodeTransform(scene.width, scene.height, scene.cam, node.x, node.y);
    var nodeWidth := 0.0;
    var nodeHeight := fontSize;
    var longestParamWidth := 0.0;
    var params: seq<string> := [];
    longest' := longest;
    if node.HasParams() {
      params := node.GetParams().value;
      nodeHeight := (|params| as real + 1.0) * fontSize;
      longest' := ScanLongest(longest, params);
      longestParamWidth := scene.measure(longest');
      nodeWidth := nodeWidth + longestParamWidth;
    }
    var nameWidth := scene.measure(node.name);
    nodeWidth := nodeWidth + nameWidth;
    var rows: seq<Row> := [];
    if node.HasParams() {
      rows := DrawRows(params, fontSize);
    }
    layout := NodeLayout(transform, nodeWidth, nodeHeight, rows, nodeWidth / 2.0 - nameWidth / 2.0, fontSize);
  }

  /** `for (let param of params) if (param.length > longest.length) longest = param`. */
  method ScanLongest(longest: string, params: seq<string>) returns (r: string)
    ensures r == LongestName(longest, params)
  {
    r := longest;
    var k := 0;
    while k < |params|
      invariant 0 <= k <= |params|
      invariant LongestName(r, params[k..]) == LongestName(longest, params)
    {
      assert params[k..][1..] == params[k + 1..];
      if |params[k]| > |r| {
        r := params[k];
      }
      k := k + 1;
    }
  }

  /** The row loop: input i is written with its baseline at fontSize·(i + 1 + 0.75). */
  method DrawRows(params: seq<string>, fontSize: real) returns (rows: seq<Row>)
    ensures rows == Rows(params, fontSize)
  {
    rows := [];
    var i := 0;
    while i < |params|
      invariant 0 <= i <= |params|
      invariant |rows| == i
      invariant forall k :: 0 <= k < i ==> rows[k] == Row(params[k], fontSize * (k as real + 1.0 + 0.75))
    {
      var ih := fontSize * (i as real + 1.0 + 0.75);
      rows := rows + [Row(params[i], ih)];
      i := i + 1;
    }
    assert forall k :: 0 <= k < |params| ==> Rows(params, fontSize)[k] == rows[k];
  }

  /** Adding a node and removing it again restores the node set. */
  lemma AddThenRemoveRestores(nodes: seq<Node>, n: Node)
    requires n !in nodes
    ensures Without(nodes + [n], n) == nodes
  {
    WithoutAppended(nodes, n);
  }
}
