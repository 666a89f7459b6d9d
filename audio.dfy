/** The pure part of src/node.ts: the node kinds, creation of a Web Audio
    node for a kind, and the table of automatable parameters per node.
    The Web Audio engine itself is not modelled: a context and the nodes it
    makes are opaque handles that only record what the editor can observe. */
module Audio {
  import opened Wrappers

  /** The kinds a node can be given (the `WebAudioNodeType` union). */
  datatype NodeKind =
    | Keyboard | Analyser | BiquadFilter | Constant | Convolver | Delay
    | DynamicsCompressor | Gain | IIRFilter | MediaElementSource
    | MediaStreamDestination | MediaStreamSource | MediaStreamTrackSource
    | Oscillator | Panner | PeriodicWave | ScriptProcessor | StereoPanner
    | WaveShaper | Destination

  /** The string that names a kind in the editor and in snapshots. */
  function KindName(k: NodeKind): (s: string)
    ensures s != ""
  {
    match k
    case Keyboard => "keyboard"
    case Analyser => "analyser"
    case BiquadFilter => "biquadfilter"
    case Constant => "constant"
    case Convolver => "convolver"
    case Delay => "delay"
    case DynamicsCompressor => "dynamicscompressor"
    case Gain => "gain"
    case IIRFilter => "iirfilter"
    case MediaElementSource => "mediaelementsource"
    case MediaStreamDestination => "mediastreamdestination"
    case MediaStreamSource => "mediastreamsource"
    case MediaStreamTrackSource => "mediastreamtracksource"
    case Oscillator => "oscillator"
    case Panner => "panner"
    case PeriodicWave => "periodicwave"
    case ScriptProcessor => "scriptprocessor"
    case StereoPanner => "stereopanner"
    case WaveShaper => "waveshaper"
    case Destination => "destination"
  }

  /** The exported list of every kind name, in declaration order. */
  function KindNames(): (names: seq<string>)
    ensures |names| == 20
  {
    ["keyboard", "analyser", "biquadfilter", "constant", "convolver", "delay",
     "dynamicscompressor", "gain", "iirfilter", "mediaelementsource",
     "mediastreamdestination", "mediastreamsource", "mediastreamtracksource",
     "oscillator", "panner", "periodicwave", "scriptprocessor", "stereopanner",
     "waveshaper", "destination"]
  }

  /** The exported list names every kind, and different kinds have different names. */
  lemma KindNamesComplete(k: NodeKind, k': NodeKind)
    ensures KindName(k) in KindNames()
    ensures KindName(k) == KindName(k') ==> k == k'
  {
  }

  /** Opaque identity of an `AudioContext`. */
  datatype AudioContext = AudioContext(id: nat)

  /** The Web Audio interface a node handle is an instance of. */
  datatype AudioInterface =
    | AnalyserNode | BiquadFilterNode | ConstantSourceNode | ConvolverNode
    | DelayNode | DynamicsCompressorNode | GainNode | IIRFilterNode
    | MediaElementAudioSourceNode | MediaStreamAudioDestinationNode
    | MediaStreamAudioSourceNode | MediaStreamTrackAudioSourceNode
    | OscillatorNode | PannerNode | ScriptProcessorNode | StereoPannerNode
    | WaveShaperNode | AudioDestinationNode

  /** An opaque handle to a Web Audio node: the interface it implements, the
      context it belongs to, and whether `start()` has been called on it. */
  datatype AudioNode = AudioNode(iface: AudioInterface, context: AudioContext, started: bool)

  /** Opaque reference to a media element, stream or track. */
  datatype MediaRef = MediaRef(id: nat)

  /** Extra arguments some kinds forward to the engine (`CreateAudioNodeOptions`). */
  datatype CreateAudioNodeOptions = CreateAudioNodeOptions(
    mediaSource: Option<MediaRef>,
    mediaStream: Option<MediaRef>,
    mediaStreamTrack: Option<MediaRef>,
    feedForward: Option<seq<real>>,
    feedBack: Option<seq<real>>)

  /** What `createAudioNode` can throw. */
  datatype AudioError =
    | NotHandled(typeName: string)        // the `default` branch of the switch
    | OptionsUndefined(typeName: string)  // `options.x` read while `options` is undefined
    | ArgumentMissing(typeName: string)   // the engine factory rejects an undefined argument

  /** The kinds whose factory call reads a field of the options argument. */
  predicate ReadsOptions(k: NodeKind) {
    k == IIRFilter || k == MediaElementSource || k == MediaStreamSource || k == MediaStreamTrackSource
  }

  /** The options carry every field the factory call for `k` passes on:
      both coefficient lists for iirfilter, the element, stream or track for
      the three media sources. The engine factories reject `undefined` there. */
  predicate SuppliesArguments(k: NodeKind, o: CreateAudioNodeOptions) {
    match k
    case IIRFilter => o.feedForward.Some? && o.feedBack.Some?
    case MediaElementSource => o.mediaSource.Some?
    case MediaStreamSource => o.mediaStream.Some?
    case MediaStreamTrackSource => o.mediaStreamTrack.Some?
    case _ => true
  }

  /** Whether the factory call for `k` goes through with these options. */
  function CheckOptions(k: NodeKind, options: Option<CreateAudioNodeOptions>): Option<AudioError>
    requires ReadsOptions(k)
  {
    if options.None? then Some(OptionsUndefined(KindName(k)))
    else if !SuppliesArguments(k, options.value) then Some(ArgumentMissing(KindName(k)))
    else None
  }

  /** The engine interface the factory call for a kind returns an instance of;
      none for the keyboard, which has no engine node, and for "periodicwave",
      which the factory does not handle. */
  function InterfaceOf(k: NodeKind): Option<AudioInterface> {
    match k
    case Analyser => Some(AnalyserNode)
    case BiquadFilter => Some(BiquadFilterNode)
    case Constant => Some(ConstantSourceNode)
    case Convolver => Some(ConvolverNode)
    case Delay => Some(DelayNode)
    case DynamicsCompressor => Some(DynamicsCompressorNode)
    case Gain => Some(GainNode)
    case IIRFilter => Some(IIRFilterNode)
    case MediaElementSource => Some(MediaElementAudioSourceNode)
    case MediaStreamDestination => Some(MediaStreamAudioDestinationNode)
    case MediaStreamSource => Some(MediaStreamAudioSourceNode)
    case MediaStreamTrackSource => Some(MediaStreamTrackAudioSourceNode)
    case Oscillator => Some(OscillatorNode)
    case Panner => Some(PannerNode)
    case ScriptProcessor => Some(ScriptProcessorNode)
    case StereoPanner => Some(StereoPannerNode)
    case WaveShaper => Some(WaveShaperNode)
    case Destination => Some(AudioDestinationNode)
    case Keyboard => None
    case PeriodicWave => None
  }

  /** `createAudioNode(ctx, type, options)`: `Success(Some(h))` is a new engine
      node, `Success(None)` the `undefined` returned for the keyboard kind. */
  function CreateAudioNode(ctx: AudioContext, kind: NodeKind, options: Option<CreateAudioNodeOptions>)
    : (r: Result<Option<AudioNode>, AudioError>)
    ensures r.Failure? <==> kind == PeriodicWave || (ReadsOptions(kind) && (options.None? || !SuppliesArguments(kind, options.value)))
    ensures ReadsOptions(kind) && options.None? ==> r == Failure(OptionsUndefined(KindName(kind)))
    ensures ReadsOptions(kind) && options.Some? && !SuppliesArguments(kind, options.value) ==>
              r == Failure(ArgumentMissing(KindName(kind)))
    ensures r == Success(None) <==> kind == Keyboard
    ensures r.Success? && r.value.Some? ==> r.value.value.context == ctx
    ensures r.Success? && r.value.Some? ==> Some(r.value.value.iface) == InterfaceOf(kind)
    ensures r.Success? && r.value.Some? ==> (r.value.value.started <==> kind == Oscillator)
    ensures kind == PeriodicWave ==> r == Failure(NotHandled("periodicwave"))
  {
    match kind
    case Analyser => Success(Some(AudioNode(AnalyserNode, ctx, false)))
    case BiquadFilter => Success(Some(AudioNode(BiquadFilterNode, ctx, false)))
    case Constant => Success(Some(AudioNode(ConstantSourceNode, ctx, false)))
    case Convolver => Success(Some(AudioNode(ConvolverNode, ctx, false)))
    case Delay => Success(Some(AudioNode(DelayNode, ctx, false)))
    case DynamicsCompressor => Success(Some(AudioNode(DynamicsCompressorNode, ctx, false)))
    case Gain => Success(Some(AudioNode(GainNode, ctx, false)))
    case IIRFilter =>
      var err := CheckOptions(kind, options);
      if err.Some? then Failure(err.value) else Success(Some(AudioNode(IIRFilterNode, ctx, false)))
    case MediaElementSource =>
      var err := CheckOptions(kind, options);
      if err.Some? then Failure(err.value) else Success(Some(AudioNode(MediaElementAudioSourceNode, ctx, false)))
    case MediaStreamDestination => Success(Some(AudioNode(MediaStreamAudioDestinationNode, ctx, false)))
    case MediaStreamSource =>
      var err := CheckOptions(kind, options);
      if err.Some? then Failure(err.value) else Success(Some(AudioNode(MediaStreamAudioSourceNode, ctx, false)))
    case MediaStreamTrackSource =>
      var err := CheckOptions(kind, options);
      if err.Some? then Failure(err.value) else Success(Some(AudioNode(MediaStreamTrackAudioSourceNode, ctx, false)))
    case Oscillator =>
      // the oscillator is started before it is returned
      Success(Some(AudioNode(OscillatorNode, ctx, true)))
    case Panner => Success(Some(AudioNode(PannerNode, ctx, false)))
    case ScriptProcessor => Success(Some(AudioNode(ScriptProcessorNode, ctx, false)))
    case StereoPanner => Success(Some(AudioNode(StereoPannerNode, ctx, false)))
    case WaveShaper => Success(Some(AudioNode(WaveShaperNode, ctx, false)))
    case Destination => Success(Some(AudioNode(AudioDestinationNode, ctx, false)))
    case Keyboard => Success(None)
    case PeriodicWave => Failure(NotHandled(KindName(kind)))
  }

  /** An automatable parameter of an engine node, named by its Web Audio attribute. */
  datatype AudioParam = AudioParam(owner: AudioNode, attribute: string)

  /** The `AudioParams` record: entries in insertion order, as `Object.keys` lists them. */
  type AudioParams = seq<(string, AudioParam)>

  /** The keys of a parameter record, in order. */
  function Keys(ps: AudioParams): (ks: seq<string>)
    ensures |ks| == |ps|
    ensures forall i :: 0 <= i < |ps| ==> ks[i] == ps[i].0
  {
    seq(|ps|, i requires 0 <= i < |ps| => ps[i].0)
  }

  /** `params[id]`: the first entry with that key, or `undefined`. */
  function Lookup(ps: AudioParams, id: string): (r: Option<AudioParam>)
    ensures r.None? <==> id !in Keys(ps)
    ensures r.Some? ==> exists i :: 0 <= i < |ps| && ps[i] == (id, r.value)
  {
    if ps == [] then None
    else if ps[0].0 == id then Some(ps[0].1)
    else Lookup(ps[1..], id)
  }

  /** Reference table: the engine attribute each lower-case parameter key
      names, where the two spellings differ. */
  function Attribute(key: string): string {
    if key == "q" then "Q"
    else if key == "delaytime" then "delayTime"
    else if key == "orientationx" then "orientationX"
    else if key == "orientationy" then "orientationY"
    else if key == "orientationz" then "orientationZ"
    else if key == "positionx" then "positionX"
    else if key == "positiony" then "positionY"
    else if key == "positionz" then "positionZ"
    else key
  }

  /** `getAudioNodeParams(node)`: the automatable parameters of an engine node,
      chosen by the node's interface. `None` stands for an `undefined` node,
      which is an instance of no interface and so has no parameters. */
  function GetAudioNodeParams(node: Option<AudioNode>): (r: AudioParams)
    ensures node.None? ==> r == []
    ensures forall i :: 0 <= i < |r| ==> r[i].1.owner == node.value
    ensures forall i :: 0 <= i < |r| ==> r[i].1.attribute == Attribute(r[i].0)
  {
    if node.None? then []
    else
      var n := node.value;
      match n.iface
      case BiquadFilterNode =>
        [("q", AudioParam(n, "Q")), ("detune", AudioParam(n, "detune")),
         ("frequency", AudioParam(n, "frequency")), ("gain", AudioParam(n, "gain"))]
      case ConstantSourceNode => [("offset", AudioParam(n, "offset"))]
      case DelayNode => [("delaytime", AudioParam(n, "delayTime"))]
      case DynamicsCompressorNode =>
        [("attack", AudioParam(n, "attack")), ("knee", AudioParam(n, "knee")),
         ("ratio", AudioParam(n, "ratio")), ("release", AudioParam(n, "release")),
         ("threshold", AudioParam(n, "threshold"))]
      case GainNode => [("gain", AudioParam(n, "gain"))]
      case OscillatorNode =>
        [("detune", AudioParam(n, "detune")), ("frequency", AudioParam(n, "frequency"))]
      case PannerNode =>
        [("orientationx", AudioParam(n, "orientationX")), ("orientationy", AudioParam(n, "orientationY")),
         ("orientationz", AudioParam(n, "orientationZ")), ("positionx", AudioParam(n, "positionX")),
         ("positiony", AudioParam(n, "positionY")), ("positionz", AudioParam(n, "positionZ"))]
      case StereoPannerNode => [("pan", AudioParam(n, "pan"))]
      case _ => []
  }

  /** Reference table: the parameter names the editor exposes for each node kind. */
  function ParamNames(k: NodeKind): seq<string> {
    match k
    case BiquadFilter => ["q", "detune", "frequency", "gain"]
    case Constant => ["offset"]
    case Delay => ["delaytime"]
    case DynamicsCompressor => ["attack", "knee", "ratio", "release", "threshold"]
    case Gain => ["gain"]
    case Oscillator => ["detune", "frequency"]
    case Panner => ["orientationx", "orientationy", "orientationz", "positionx", "positiony", "positionz"]
    case StereoPanner => ["pan"]
    case _ => []
  }

  /** Whatever `createAudioNode` returns for a kind (an engine node, or
      `undefined` for the keyboard) has exactly that kind's parameter names,
      in table order and without repetition. */
  lemma CreatedNodeParams(ctx: AudioContext, k: NodeKind, options: Option<CreateAudioNodeOptions>)
    requires CreateAudioNode(ctx, k, options).Success?
    ensures Keys(GetAudioNodeParams(CreateAudioNode(ctx, k, options).value)) == ParamNames(k)
    ensures forall i, j :: 0 <= i < j < |ParamNames(k)| ==> ParamNames(k)[i] != ParamNames(k)[j]
  {
    var created := CreateAudioNode(ctx, k, options).value;
    if created.Some? {
      InterfaceParams(created.value, k);
    }
  }

  /** The parameter names of an engine node of the interface a kind creates
      are that kind's reference names. */
  lemma InterfaceParams(n: AudioNode, k: NodeKind)
    requires Some(n.iface) == InterfaceOf(k)
    ensures Keys(GetAudioNodeParams(Some(n))) == ParamNames(k)
  {
    var ps := GetAudioNodeParams(Some(n));
    match k
    case BiquadFilter => assert Keys(ps) == ParamNames(k);
    case Constant => assert Keys(ps) == ParamNames(k);
    case Delay => assert Keys(ps) == ParamNames(k);
    case DynamicsCompressor => assert Keys(ps) == ParamNames(k);
    case Gain => assert Keys(ps) == ParamNames(k);
    case Oscillator => assert Keys(ps) == ParamNames(k);
    case Panner => assert Keys(ps) == ParamNames(k);
    case StereoPanner => assert Keys(ps) == ParamNames(k);
    case _ =>
  }
}
