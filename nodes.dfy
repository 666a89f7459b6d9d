/** The `Node` class of src/node.ts: a positioned, coloured entity that may
    own an engine node of some kind, its parameter record, and a map of UI
    controls keyed by parameter name. */
module Nodes {
  import opened Wrappers
  import opened Sequences
  import opened Audio

  const DefaultColor: string := "#222255"
  const DefaultTextcolor: string := "#9f9f9f"
  const DefaultName: string := "Node"
  /** The synthetic input name listed after the parameter names. */
  const AudioIn: string := "audio in"

  /** Opaque UI component stored in a node's control map. */
  datatype Control = Control(id: nat)

  /** `NodeCreateOptions`; every field may be left undefined. */
  datatype NodeCreateOptions = NodeCreateOptions(
    x: Option<real>,
    y: Option<real>,
    internalType: Option<NodeKind>,
    audioContext: Option<AudioContext>,
    color: Option<string>,
    textcolor: Option<string>,
    name: Option<string>)

  /** The options object of `new Node()`: nothing given. */
  const NoOptions := NodeCreateOptions(None, None, None, None, None, None, None)

  /** `NodeJSON`, the snapshot record; `kind` is undefined for a node never typed. */
  datatype NodeJSON = NodeJSON(x: real, y: real, kind: Option<NodeKind>, name: string, color: string, textcolor: string)

  /** What the node operations can throw. */
  datatype NodeError =
    | MissingAudioContext(typeName: string)
    | EngineError(error: AudioError)
    | NoControl(id: string)
    | ParamsUndefined      // `Object.keys` or an index applied to undefined params

  /** `a || fallback` for an optional number: 0 is falsy too. */
  function NumberOr(a: Option<real>, fallback: real): (r: real)
    ensures a.Some? && a.value != 0.0 ==> r == a.value
    ensures a.None? || a.value == 0.0 ==> r == fallback
  {
    if a.Some? && a.value != 0.0 then a.value else fallback
  }

  /** `a || b` for an optional string: the empty string is falsy too. */
  function StringOr(a: Option<string>, fallback: string): (r: string)
    ensures a.Some? && a.value != "" ==> r == a.value
    ensures a.None? || a.value == "" ==> r == fallback
  {
    if a.Some? && a.value != "" then a.value else fallback
  }

  /** The name a node created with `options` gets:
      `options.name || options.internalType || "Node"`. */
  function InitialName(options: NodeCreateOptions): (r: string)
    ensures r != ""
    ensures options.name.Some? && options.name.value != "" ==> r == options.name.value
    ensures StringOr(options.name, "") == "" && options.internalType.Some? ==> r == KindName(options.internalType.value)
    ensures StringOr(options.name, "") == "" && options.internalType.None? ==> r == DefaultName
  {
    StringOr(options.name, if options.internalType.Some? then KindName(options.internalType.value) else DefaultName)
  }

  /** `new Node(options)` throws: a kind without a context, or a kind the
      engine factory cannot create without further options. */
  predicate CreateThrows(options: NodeCreateOptions) {
    options.internalType.Some? &&
    (options.audioContext.None? ||
     CreateAudioNode(options.audioContext.value, options.internalType.value, None).Failure?)
  }

  class Node {
    var x: real
    var y: real
    /** Text as displayed to the user, not unique. */
    var name: string
    var color: string
    var textcolor: string
    var internalType: Option<NodeKind>
    var internal: Option<AudioNode>
    var internalParams: Option<AudioParams>
    var controls: map<string, Control>
    /** The keys of `controls` in insertion order (the iteration order of a JavaScript `Map`). */
    var controlIds: seq<string>

    ghost predicate Valid()
      reads this
    {
      && Distinct(controlIds)
      && controls.Keys == Elements(controlIds)
      && (internalParams.None? ==> internal.None?)
      && (internalParams.Some? ==> internalParams.value == GetAudioNodeParams(internal))
    }

    /** `new Node()` without options. */
    constructor ()
      ensures Valid()
      ensures x == 0.0 && y == 0.0
      ensures color == DefaultColor && textcolor == DefaultTextcolor && name == DefaultName
      ensures internalType == None && internal == None && internalParams == None
      ensures controls == map[] && controlIds == []
    {
      controls := map[];
      controlIds := [];
      x := 0.0;
      y := 0.0;
      internalType := None;
      internal := None;
      internalParams := None;
      color := DefaultColor;
      textcolor := DefaultTextcolor;
      name := DefaultName;
    }

    /** `new Node(options)`: throws when a kind is given without a context or
        when creating the engine node for that kind throws. */
    static method Create(options: NodeCreateOptions) returns (r: Result<Node, NodeError>)
      ensures r.Failure? <==> CreateThrows(options)
      ensures options.internalType.Some? && options.audioContext.None? ==>
                r == Failure(MissingAudioContext(KindName(options.internalType.value)))
      ensures r.Success? ==> fresh(r.value) && r.value.Valid()
      ensures r.Success? ==> r.value.x == NumberOr(options.x, 0.0) && r.value.y == NumberOr(options.y, 0.0)
      ensures r.Success? ==> r.value.color == StringOr(options.color, DefaultColor)
      ensures r.Success? ==> r.value.textcolor == StringOr(options.textcolor, DefaultTextcolor)
      ensures r.Success? ==> r.value.name == InitialName(options)
      ensures r.Success? ==> r.value.internalType == options.internalType
      ensures r.Success? ==> (r.value.HasParams() <==> options.internalType.Some?)
      ensures r.Success? && options.internalType.Some? ==>
                r.value.GetParams() == Success(ParamNames(options.internalType.value) + [AudioIn])
      ensures r.Success? ==> r.value.controls == map[]
    {
      var n := new Node();
      n.SetX(NumberOr(options.x, 0.0));
      n.SetY(NumberOr(options.y, 0.0));
      if options.internalType.Some? {
        var kind := options.internalType.value;
        if options.audioContext.None? {
          return Failure(MissingAudioContext(KindName(kind)));
        }
        var outcome := n.SetType(kind, options.audioContext.value, None);
        if outcome.Fail? {
          return Failure(outcome.error);
        }
      }
      n.SetColor(StringOr(options.color, DefaultColor));
      n.SetTextcolor(StringOr(options.textcolor, DefaultTextcolor));
      n.SetName(InitialName(options));
      r := Success(n);
    }

    method SetX(v: real)
      modifies this`x
      ensures x == v
    {
      x := v;
    }

    method SetY(v: real)
      modifies this`y
      ensures y == v
    {
      y := v;
    }

    method SetColor(c: string)
      modifies this`color
      ensures color == c
    {
      color := c;
    }

    method SetName(s: string)
      modifies this`name
      ensures name == s
    {
      name := s;
    }

    method SetTextcolor(c: string)
      modifies this`textcolor
      ensures textcolor == c
    {
      textcolor := c;
    }

    /** Replaces the engine node (possibly with `undefined`) and recomputes its parameter record. */
    method SetInternal(node: Option<AudioNode>)
      requires Valid()
      modifies this`internal, this`internalParams
      ensures Valid()
      ensures internal == node && internalParams == Some(GetAudioNodeParams(node))
      ensures HasParams()
    {
      internal := node;
      internalParams := Some(GetAudioNodeParams(internal));
    }

    /** `getParam(id)`: the parameter stored under `id`, `undefined` when there is
        none, and a throw when the node has no parameter record at all. */
    function GetParam(id: string): (r: Result<Option<AudioParam>, NodeError>)
      requires Valid()
      reads this
      ensures r.Failure? <==> !HasParams()
      ensures r.Success? ==> (r.value.Some? <==> id in Keys(internalParams.value))
      ensures r.Success? && r.value.Some? ==> (id, r.value.value) in internalParams.value
      ensures r.Success? && r.value.Some? ==> internal.Some? && r.value.value.owner == internal.value
      ensures r.Success? && r.value.Some? ==> r.value.value.attribute == Attribute(id)
    {
      if internalParams.None? then Failure(ParamsUndefined) else Success(Lookup(internalParams.value, id))
    }

    /** `hasParams()`: a parameter record exists, even an empty one; that is
        exactly when `getParams` does not throw. */
    predicate HasParams()
      reads this
      ensures HasParams() <==> GetParams().Success?
    {
      internalParams.Some?
    }

    /** `getParams()`: the parameter names followed by one `"audio in"` entry. */
    function GetParams(): (r: Result<seq<string>, NodeError>)
      reads this
      ensures r.Success? <==> internalParams.Some?
      ensures r.Success? ==> |r.value| == |internalParams.value| + 1
      ensures r.Success? ==> r.value[..|internalParams.value|] == Keys(internalParams.value)
      ensures r.Success? ==> r.value[|r.value| - 1] == AudioIn
    {
      if internalParams.None? then Failure(ParamsUndefined)
      else Success(Keys(internalParams.value) + [AudioIn])
    }

    /** `setType(kind, ctx, options)`: the kind is recorded first, so it stays
        recorded even when creating the engine node throws; the engine node and
        parameters are replaced only on success. Controls are left alone. */
    method SetType(kind: NodeKind, ctx: AudioContext, options: Option<CreateAudioNodeOptions>)
      returns (outcome: Outcome<NodeError>)
      requires Valid()
      modifies this`internalType, this`internal, this`internalParams
      ensures Valid()
      ensures internalType == Some(kind)
      ensures outcome.Pass? <==> CreateAudioNode(ctx, kind, options).Success?
      ensures outcome.Pass? ==> internal == CreateAudioNode(ctx, kind, options).value
      ensures outcome.Pass? ==> GetParams() == Success(ParamNames(kind) + [AudioIn])
      ensures outcome.Fail? ==> outcome.error == EngineError(CreateAudioNode(ctx, kind, options).error)
      ensures outcome.Fail? ==> internal == old(internal) && internalParams == old(internalParams)
    {
      internalType := Some(kind);
      var created := CreateAudioNode(ctx, kind, options);
      if created.Failure? {
        return Fail(EngineError(created.error));
      }
      SetInternal(created.value);
      CreatedNodeParams(ctx, kind, options);
      outcome := Pass;
    }

    /** `hasControl(id)`: exactly when `getControl(id)` does not throw. */
    predicate HasControl(id: string)
      reads this
      ensures HasControl(id) <==> GetControl(id).Success?
    {
      id in controls
    }

    /** `getControl(id)`: throws when no control is stored under `id`. */
    function GetControl(id: string): (r: Result<Control, NodeError>)
      reads this
      ensures r.Success? <==> id in controls
      ensures r.Success? ==> r.value == controls[id]
      ensures r.Failure? ==> r.error == NoControl(id)
    {
      if id !in controls then Failure(NoControl(id)) else Success(controls[id])
    }

    /** `setControl(id, c)`: stores or overwrites; a new id goes last in iteration order. */
    method SetControl(id: string, c: Control)
      requires Valid()
      modifies this`controls, this`controlIds
      ensures Valid()
      ensures controls == old(controls)[id := c]
      ensures controlIds == if id in old(controls) then old(controlIds) else old(controlIds) + [id]
      ensures GetControl(id) == Success(c)
      ensures |controls| == if id in old(controls) then old(|controls|) else old(|controls|) + 1
    {
      if id !in controls {
        controlIds := controlIds + [id];
      }
      controls := controls[id := c];
      assert Elements(controlIds) == Elements(old(controlIds)) + {id};
    }

    /** `getControls()`: the control ids in iteration order, filled into a new
        array of the map's size with a running index. */
    method GetControls() returns (ids: array<string>)
      requires Valid()
      ensures fresh(ids)
      ensures ids[..] == controlIds
      ensures ids.Length == |controls|
      ensures forall id :: id in controls <==> id in ids[..]
    {
      DistinctCardinality(controlIds);
      ids := new string[|controls|];
      var ind := 0;
      while ind < |controlIds|
        invariant 0 <= ind <= |controlIds| == ids.Length
        invariant ids[..ind] == controlIds[..ind]
      {
        ids[ind] := controlIds[ind];
        ind := ind + 1;
      }
      assert ids[..] == ids[..ind];
    }

    /** `toJSON()`: position, name, kind and colours; not the engine node or controls. */
    function ToJSON(): (json: NodeJSON)
      reads this
      ensures json.x == x && json.y == y && json.name == name && json.kind == internalType
      ensures json.color == color && json.textcolor == textcolor
    {
      NodeJSON(x, y, internalType, name, color, textcolor)
    }

    /** `Node.fromJSON(json, ctx, options)`: a fresh `new Node()` given the
        snapshot's position and name and then the snapshot's kind. The colours
        are not read back, so they are the defaults. An undefined kind reaches
        the `default` branch of `createAudioNode` and throws. */
    static method FromJSON(json: NodeJSON, ctx: AudioContext, options: Option<CreateAudioNodeOptions>)
      returns (r: Result<Node, NodeError>)
      ensures r.Success? <==> json.kind.Some? && CreateAudioNode(ctx, json.kind.value, options).Success?
      ensures json.kind.None? ==> r == Failure(EngineError(NotHandled("undefined")))
      ensures r.Success? ==> fresh(r.value) && r.value.Valid()
      ensures r.Success? ==> r.value.x == json.x && r.value.y == json.y && r.value.name == json.name
      ensures r.Success? ==> r.value.internalType == json.kind
      ensures r.Success? ==> r.value.color == DefaultColor && r.value.textcolor == DefaultTextcolor
      ensures r.Success? ==> r.value.GetParams() == Success(ParamNames(json.kind.value) + [AudioIn])
      ensures r.Success? ==> r.value.controls == map[]
    {
      var n := new Node();
      n.SetX(json.x);
      n.SetY(json.y);
      n.SetName(json.name);
      if json.kind.None? {
        return Failure(EngineError(NotHandled("undefined")));
      }
      var outcome := n.SetType(json.kind.value, ctx, options);
      if outcome.Fail? {
        return Failure(outcome.error);
      }
      r := Success(n);
    }
  }

  /** Restoring a snapshot: `Node.fromJSON(n.toJSON(), ...)` gives a node with
      the same position, name and kind as `n`, but default colours. */
  method SnapshotRoundTrip(n: Node, ctx: AudioContext, options: Option<CreateAudioNodeOptions>)
    returns (r: Result<Node, NodeError>)
    requires n.internalType.Some? && CreateAudioNode(ctx, n.internalType.value, options).Success?
    ensures r.Success?
    ensures r.value.x == n.x && r.value.y == n.y && r.value.name == n.name
    ensures r.value.internalType == n.internalType
    ensures r.value.color == DefaultColor && r.value.textcolor == DefaultTextcolor
  {
    r := Node.FromJSON(n.ToJSON(), ctx, options);
  }
}
