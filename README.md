# oxylator, modelled in Dafny

oxylator is a browser patch editor for the Web Audio API. Its nodes sit on a
pan-and-zoom canvas. Each node may wrap a Web Audio `AudioNode`, whose
automatable parameters are drawn as labelled input rows. This project models
three parts of it:

- **The renderer** (`Rendering`, renderer.dfy). The camera position and its
  movement. The zoom setter, which clamps to `[0.1, 10]`. The set of nodes,
  with the same add, remove, has and create semantics as src/renderer.ts,
  including the errors on a repeated add and on removing an absent node.
  The node render pass, as an affine transform and a per-node layout. The
  layout covers node size, input-row baselines, the name position and the
  `longestParamName` the pass carries from node to node.
- **The node model** (`Audio`, audio.dfy; `Nodes`, nodes.dfy).
  `createAudioNode`, which turns 18 of the 20 type strings into engine
  nodes. "keyboard" gives no engine node, and "periodicwave" throws.
  `getAudioNodeParams`, which maps the engine node class to named
  parameters. The `Node` class, covering its constructor options, its
  setters, `setType`, `getParams`, the named controls, and the
  `toJSON`/`fromJSON` snapshot.
- **The settings panel** (`Settings`, settings.dfy). The typed
  `SettingsOption` cell, and the `SettingsPanel` registry with its
  first-match lookup by id.

The identity-based JavaScript `Set`s (the renderer's nodes, the panel's
options) are modelled as duplicate-free sequences in insertion order
(`Sequences`, sequences.dfy), because the render order and the lookup order
follow insertion. The string-keyed controls `Map` of a node is a Dafny `map`
together with a duplicate-free sequence of its keys in insertion order, which
is the order `getControls` returns. Constructors and methods that throw return a `Result` or
`Outcome` (wrappers.dfy). Engine handles are plain values. A handle records
its context, its engine interface and whether it was started.

## Model

| member | source | states |
|---|---|---|
| Audio.KindName | src/node.ts:4-5 | every node type has a non-empty type string |
| Audio.KindNames | src/node.ts:5 | the exported type-string list has exactly 20 entries |
| Audio.KindNamesComplete | src/node.ts:4-5 | every type's string is in the exported list, and distinct types have distinct strings |
| Audio.CreateAudioNode | src/node.ts:21-67 | throws exactly for "periodicwave" (not handled), and for iirfilter or a media source whose options are undefined or lack the field its factory call passes on (both coefficient lists, the media element, the stream, the track); "keyboard" yields no engine node; a created node belongs to the given context, is an instance of the interface its type names, and is started exactly when it is an oscillator |
| Audio.Lookup | src/node.ts:69-71 | looking a parameter up by name finds one exactly when the name is a key |
| Audio.GetAudioNodeParams | src/node.ts:73-106 | every parameter returned is owned by the node passed in, and the parameter under each key is the engine attribute that key names ("q" is `Q`, "delaytime" is `delayTime`, "positionx" is `positionX`, …); no node (or an unknown class) gives an empty table |
| Audio.InterfaceParams | src/node.ts:75-104 | an engine node of the interface a type creates has exactly that type's reference parameter names, in table order |
| Audio.CreatedNodeParams | src/node.ts:21-106 | for every type that creates successfully, the parameter names are exactly the reference list for that type (for example q, detune, frequency, gain for a biquad filter), and they are distinct |
| Nodes.StringOr | src/node.ts:150-151 | the `\|\|` default for strings: a given non-empty string is kept, an absent or empty one gives the fallback |
| Nodes.NumberOr | src/node.ts:144-145 | the `\|\|` default for numbers: a given non-zero number is kept, an absent or zero one gives the fallback |
| Nodes.InitialName | src/node.ts:152 | the initial name is the given name, else the type string, else "Node", and is never empty |
| Nodes.Node.constructor | src/node.ts:142-153 | with no options: position 0,0, the default colours, name "Node", no type, no engine node, no parameters, no controls |
| Nodes.Node.Create | src/node.ts:142-153 | throws exactly when a type is given without an audio context or the engine refuses the type; otherwise the position, colours and name follow the `\|\|` defaults of the options, the type is recorded, and a typed node's parameter list is that type's reference names plus "audio in" while an untyped node has none |
| Nodes.Node.SetX | src/node.ts:161-163 | the x setter stores its value |
| Nodes.Node.SetY | src/node.ts:164-166 | the y setter stores its value |
| Nodes.Node.SetColor | src/node.ts:167-169 | the colour setter stores its value |
| Nodes.Node.SetName | src/node.ts:173-175 | the name setter stores its value |
| Nodes.Node.SetTextcolor | src/node.ts:179-181 | the text-colour setter stores its value |
| Nodes.Node.SetInternal | src/node.ts:191-195 | stores the engine node and recomputes its parameter table, so the node then has parameters |
| Nodes.Node.GetParam | src/node.ts:196-198 | a parameter is found exactly when its name is a key of the table; the one found is the entry stored under that key, belongs to the wrapped engine node and is the engine attribute the key names; with no table the access throws |
| Nodes.Node.HasParams | src/node.ts:199-201 | the node has parameters exactly when `getParams` does not throw |
| Nodes.Node.GetParams | src/node.ts:199-206 | succeeds exactly when the node has parameters; the result is the parameter names in order followed by "audio in" |
| Nodes.Node.SetType | src/node.ts:210-224 | records the type even when creation throws; succeeds exactly when the engine creates the type; on success the parameter list is that type's reference names plus "audio in"; on failure the engine node and table are unchanged |
| Nodes.Node.HasControl | src/node.ts:226-228 | a control is present exactly when `getControl` does not throw for its id |
| Nodes.Node.GetControl | src/node.ts:225-234 | returns the control stored under the id, and throws exactly when there is none |
| Nodes.Node.SetControl | src/node.ts:235-240 | updates the map entry; the id joins the insertion order only when it is new, so the size grows by one exactly then; the control reads back |
| Nodes.Node.GetControls | src/node.ts:241-251 | returns a fresh array, sized to the control count, holding the control ids in insertion order |
| Nodes.Node.ToJSON | src/node.ts:252-261 | the snapshot records the position, name, type and both colours, and nothing of the engine node or the controls |
| Nodes.Node.FromJSON | src/node.ts:266-273 | succeeds exactly when the snapshot has a type the engine creates (a missing type throws "undefined is not handled"); the result has the snapshot's position, name and type, the default colours, and that type's parameters |
| Nodes.SnapshotRoundTrip | src/node.ts:252-273 | a typed node whose type creates again comes back from `toJSON` then `fromJSON` with its position, name and type; its colours are reset to the defaults |
| Rendering.ApplyTranslate | src/renderer.ts:34-39 | a translation shifts the point before the earlier transform applies |
| Rendering.ApplyScale | src/renderer.ts:35 | a scale multiplies the point before the earlier transform applies |
| Rendering.WorldToScreen | src/renderer.ts:32-50 | a point in node space lands at half the canvas size plus (point + node position + camera) divided by the zoom |
| Rendering.Clamp | src/renderer.ts:111-116 | the result lies in the bounds, equals the input inside them and saturates to the violated bound outside them |
| Rendering.ZoomStaysInRange | src/renderer.ts:111-123 | any sequence of zoom steps keeps the zoom within its bounds |
| Rendering.ZoomOutSaturates | src/renderer.ts:111-123 | from zoom 1, a step of -50 clamps to the minimum 0.1 |
| Rendering.View | src/renderer.ts:57-58 | a node shows input rows exactly when it has parameters |
| Rendering.Views | src/renderer.ts:48 | the views follow the node set in insertion order, one per node |
| Rendering.LongestName | src/renderer.ts:60-62 | the carried longest name never shrinks, is the old one or one of the names, and is at least as long as every name |
| Rendering.FirstLongestWins | src/renderer.ts:60-62 | because the comparison is strict, the carried name changes only to the first name of maximal length, and only when that name is strictly longer |
| Rendering.LongestNameConcat | src/renderer.ts:44-62 | scanning two lists in turn equals scanning their concatenation, which is why the longest name carries over from node to node |
| Rendering.PassLayout | src/renderer.ts:48-93 | one layout per node |
| Rendering.PassAt | src/renderer.ts:44-93 | the i-th node's layout uses the longest name over the inputs of nodes 0..i, not just its own |
| Rendering.PassStep | src/renderer.ts:48-93 | each node of the pass is laid out with the carried name updated by its own inputs, and the rest of the pass continues from that name |
| Rendering.LayoutNodeShape | src/renderer.ts:52-90 | a node's height is (rows + 1) × font size, or the font size without parameters; its width is the carried longest name's width plus its name's width; its name is centred at the font-size baseline; row k sits at font size × (k + 1.75); its transform is the screen mapping of the camera and node position |
| Rendering.LayoutOfNode | src/renderer.ts:32-95 | the render pass from an empty carried name gives every node that shape, with the longest name over the nodes drawn so far |
| Rendering.LongestCarriesOver | src/renderer.ts:44-66 | a gain node drawn after a biquad filter is measured with "frequency", the biquad's longest name, and not with its own "audio in" |
| Rendering.Renderer.constructor | src/renderer.ts:19-29 | camera 0,0, zoom 1, zoom bounds 0.1 and 10, font courier 20, no nodes |
| Rendering.Renderer.SetX | src/renderer.ts:103-106 | stores the camera x and requests a redraw |
| Rendering.Renderer.SetY | src/renderer.ts:107-110 | stores the camera y and requests a redraw |
| Rendering.Renderer.SetZoom | src/renderer.ts:111-116 | stores the value clamped to the zoom bounds and requests a redraw |
| Rendering.Renderer.AddZoom | src/renderer.ts:120-123 | the new zoom is the old one plus the step, clamped; it is one step of the zoom fold |
| Rendering.Renderer.MoveCenter | src/renderer.ts:124-129 | adds the movement to the camera position and requests a redraw |
| Rendering.Renderer.HasNode | src/renderer.ts:136-138 | a node is present exactly when it is in the node set |
| Rendering.Renderer.AddNode | src/renderer.ts:130-135 | throws and changes nothing exactly when the node is already present; otherwise the node is appended, the set gains it, and a redraw is requested |
| Rendering.Renderer.RemoveNode | src/renderer.ts:139-144 | throws and changes nothing exactly when the node is absent; otherwise the set loses it, the others keep their order, and a redraw is requested |
| Rendering.AddThenRemoveRestores | src/renderer.ts:130-144 | adding a new node and then removing it restores the node order |
| Rendering.Renderer.CreateNode | src/renderer.ts:145-151 | throws exactly when the node constructor does; otherwise a fresh node, with the constructor's name, type, colours, parameters and empty controls, is placed at the negated camera position and appended |
| Rendering.Renderer.RenderPass | src/renderer.ts:32-95 | the frame drawn by the loop over the nodes equals the render-pass layout of the nodes under the current camera and font size |
| Rendering.DrawNode | src/renderer.ts:49-92 | one node's drawing updates the carried longest name and lays the node out with the updated name |
| Rendering.ScanLongest | src/renderer.ts:60-62 | the loop over a node's parameter names computes the longest-name fold |
| Rendering.DrawRows | src/renderer.ts:78-86 | the row loop places parameter i at baseline font size × (i + 1.75) |
| Settings.ParseOptionKind | src/settingspanel.ts:8 | a parsed type string is the name of the kind it gives |
| Settings.SettingsOption.New | src/settingspanel.ts:15-45 | "select" throws "not implemented", any other unknown type throws "not handled"; the four implemented kinds start with their own control (an unchecked checkbox, an empty number input, an empty text input, a knob) |
| Settings.SettingsOption.SetName | src/settingspanel.ts:46-53 | the label text that was set is what `getName` reads back |
| Settings.SettingsOption.GetName | src/settingspanel.ts:50-53 | returns the label text, the value `setName` last wrote |
| Settings.SettingsOption.SetId | src/settingspanel.ts:142 | stores the element id that lookups match against |
| Settings.SettingsOption.GetValue | src/settingspanel.ts:54-76 | throws exactly for "select"; a boolean reads whether the checkbox is checked, the knob its reading, and number-raw and string the input's text |
| Settings.SettingsOption.SetValue | src/settingspanel.ts:77-99 | throws and changes nothing exactly for "select"; on a boolean the checkbox always becomes unchecked; on the other kinds `getValue` then returns the written value after the host's conversions |
| Settings.SettingsOption.Build | src/settingspanel.ts:141-145 | the option `create` builds is fresh and carries the given id and label; its value is the default as written by `setValue`, or its initial control when the default is null |
| Settings.SettingsOption.FromJSON | src/settingspanel.ts:100-104 | always throws; for a type the constructor rejects, the constructor's error comes first |
| Settings.FirstWithId | src/settingspanel.ts:114-124 | the index found has the id and no earlier option has it; finding none means no option has it |
| Settings.FirstWithIdAppend | src/settingspanel.ts:114-124 | appending an option leaves an existing first match in place, and the new option is found only when no earlier option has its id |
| Settings.SettingsPanel.constructor | src/settingspanel.ts:110-113 | the registry starts empty |
| Settings.SettingsPanel.Get | src/settingspanel.ts:114-124 | the scan in insertion order returns the first option with the id, or nothing when none has it |
| Settings.SettingsPanel.GetValue | src/settingspanel.ts:125-131 | an unknown id gives null, not an error; otherwise the value of the first option with that id |
| Settings.SettingsPanel.Has | src/settingspanel.ts:132-134 | membership by object identity; a registered option's id is always found by `get`, possibly on an earlier option with the same id |
| Settings.SettingsPanel.Add | src/settingspanel.ts:132-140 | throws and changes nothing exactly when that same option object is already registered; otherwise appends it, even when its id repeats |
| Settings.SettingsPanel.Create | src/settingspanel.ts:141-148 | throws exactly for a type the option constructor rejects; otherwise appends a fresh option with the id, label and default; an earlier option with the same id keeps answering lookups |

## Left out

- src/index.ts, the page wiring, keyboard and pointer handlers, DOM mounting and styling are not part of this model.
- src/math.ts `roundRect` and the canvas drawing calls (fill, fillRect, fillText, save and restore) are not part of this model. The render pass is modelled as the layout it draws: transform, size, rows and name position.
- Text measurement by the canvas is a parameter (`measure`) of the render pass, because it depends on the host's font engine.
- The render pass calls `node.getInputNames()`, which `Node` does not define. The model uses `getParams()`, the only method returning the input names, so the layout includes the "audio in" row.
- Audio.CreateAudioNode: the engine's own checks on argument values are not modelled: the coefficient-list lengths and values `createIIRFilter` requires, and an element already attached to another source node. Only absent arguments are modelled, and they throw.
- Nodes.Node.GetParam: the parameter record is a plain `{}` object, so a key such as "constructor" or "toString" finds an inherited `Object.prototype` member. The model's record has no prototype and returns nothing for such keys.
- Web Audio internals (sample processing, parameter values, `connect`) are not modelled; engine nodes are value handles without identity. `Node.connect` and `Node.disconnectAll`, which is empty, are left out.
- The `Drawing` base class and its redraw scheduling: only the redraw flag the setters raise is modelled, not its initial value.
- Numbers are unbounded reals. The `||` default in the node constructor treats NaN as falsy like 0. The model has no NaN, so a NaN position is not modelled.
- Settings.SettingsOption.SetValue: `parseFloat` and the string conversion of an input's `value` are parameters (`Coercions`) rather than defined, so the read-back values are stated in terms of those host conversions.
- Settings.SettingsOption.New: the knob's initial reading belongs to the UI toolkit and is modelled as 0.
- The default arguments of `create` (type "number-raw", default value null) are supplied by the caller. An omitted label `name` is modelled as the empty string.
- JavaScript's loose `!= null` also excludes `undefined`. The model has one null value.
