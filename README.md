# Node CPU-profiling plugin: a Dafny model

This project models the core of the Node.js CPU-profiling plugin of the monitoring agent
(`src/plugins/node/prof/nodeprofplugin.cpp`). The plugin has three parts.

- **The serializer** (`visit`, `ConstructNodeData`, `ConstructData`) walks the profiler's
  call tree in pre-order and writes one text blob:
  - a `NodeProfData,Start,<time>` line;
  - one `NodeProfData,Node,<id>,<parentId>,<script>,<function>,<line>,<samples>` line per
    node whose names can be extracted;
  - a `NodeProfData,End` line.

  Ids come from a counter that is static inside `visit` and is never reset.
- **The state machine** covers `enableOnV8Thread`, `disableOnV8Thread`, the timer
  callback `OnGatherDataOnV8Thread`, `plugin_start`, `plugin_stop`, `registerPushSource`,
  `publishEnabled` and `setEnabled`. It keeps four pieces of state:
  - whether profiling is enabled;
  - the sampling timer;
  - whether a profiler session is open;
  - the provider id.

  It also keeps what the plugin hands to the agent: the configuration messages it sends
  and the data it pushes.
- **The control-message parser** (`ibmras_monitoring_receiveMessage`) turns
  `(id, payload)` into "switch on", "switch off" or nothing.

Modules:

- `Text` (text.dfy): decimal spelling of integers as `operator<<` writes them, the inverse
  parse, and splitting and joining at a one-character separator.
- `CallTree` (call_tree.dfy): the call tree as a datatype, and the pre-order walk `Visits`
  that says which id and which parent id each node gets. It also proves the numbering
  facts.
- `WireFormat` (wire_format.dfy): the text a walk produces (`Render`, `Blob`), a reader
  for it (`ParseBlob`), the round trip, and an example.
- `Serializer` (serializer.dfy): the imperative serializer. `NodeSerializer` holds the
  persistent counter. `Visit` loops over the children and recurses, appending to a
  `StringStream`; the loop is the method `VisitChildren`. Each method is proved against
  the functions of `WireFormat`. `visit` takes the node-writing callback `cb` as an
  argument, and `ConstructData` always passes `ConstructNodeData`. In the model, `Visit`
  calls `ConstructNodeData` directly and takes a ghost `line` that stands for the
  callback's text in its contract; `WritesRecords(line)` says it is the text
  `ConstructNodeData` writes.
- `Control` (control.dfy): the control-message parse, with `std::string::find` and
  `substr` written out. The `npos + 1` is taken modulo 2^64. It also holds the
  configuration message that `publishEnabled` sends.
- `Plugin` (plugin.dfy): the class `NodeProfPlugin` with the handlers as methods, the
  invariant `Valid` they keep, and two client scenarios.

On these points the code behaves as follows, and the model follows it:

- A node whose function or script name cannot be extracted loses only its own line. Its
  id is still consumed and its children are still written. The serialization is not
  abandoned.
- The id counter is not reset between snapshots. Only the first snapshot of a process is
  numbered from 1.
- A control payload with no comma is not ignored. `find` returns `npos`, and `npos + 1`
  wraps to 0, so the topic compared is the whole payload. The bare payload
  `profiling_node_subsystem` therefore switches profiling off.
- `plugin_stop` does nothing when profiling is disabled. When enabled, it stops and
  closes the timer but sends no configuration message.

## Model

| member | source | states |
|---|---|---|
| Text.NatStr | src/plugins/node/prof/nodeprofplugin.cpp:105 | a count is written as a non-empty run of decimal digits with no leading zero |
| Text.IntStr | src/plugins/node/prof/nodeprofplugin.cpp:104 | an `int` field is written with only a minus sign and digits |
| Text.NatStrRoundTrip | src/plugins/node/prof/nodeprofplugin.cpp:105 | reading back the decimal spelling of a count gives the count |
| Text.IntStrRoundTrip | src/plugins/node/prof/nodeprofplugin.cpp:104 | reading back the spelling of an id, parent id or line number gives the same integer |
| Text.SplitJoin | src/plugins/node/prof/nodeprofplugin.cpp:104-105 | fields joined with a separator split back into the same fields when none holds the separator |
| CallTree.VisitsNumbering | src/plugins/node/prof/nodeprofplugin.cpp:113-121 | the walk from a node visits that node first with the given parent id and the counter's value as its id; there is one visit per node; ids run consecutively from the counter; every later visit's parent id is the id of an earlier visit whose node has it as a child |
| CallTree.ChildVisitsNumbering | src/plugins/node/prof/nodeprofplugin.cpp:118-120 | the loop over the children visits them in order with the parent's id as parent, and the descendants from earlier visits of the loop |
| CallTree.ChildVisited | src/plugins/node/prof/nodeprofplugin.cpp:118-120 | child `i` is visited right after the subtrees of the children before it, with its parent's id as parent id |
| CallTree.SubtreeSegment | src/plugins/node/prof/nodeprofplugin.cpp:113-121 | pre-order: the visits from any node on, as many as its subtree has nodes, are exactly the walk of that subtree |
| CallTree.ChildrenVisitedUnderParent | src/plugins/node/prof/nodeprofplugin.cpp:115-120 | every child of every node is visited, at a position fixed by the sizes of the earlier siblings, with that node's id as parent id |
| WireFormat.NodeLineFields | src/plugins/node/prof/nodeprofplugin.cpp:104-105 | a node line holds exactly the eight comma-separated fields, script before function, and no newline |
| WireFormat.NodeLineSpelled | src/plugins/node/prof/nodeprofplugin.cpp:104-105 | a node line is `NodeProfData,Node,` then id, parent id, script, function, line and samples, separated by commas and not escaped |
| WireFormat.StartLineSpelled | src/plugins/node/prof/nodeprofplugin.cpp:128 | the first line is `NodeProfData,Start,` followed by the time |
| WireFormat.RecordRoundTrip | src/plugins/node/prof/nodeprofplugin.cpp:104-105 | reading back a node line gives the same record when the names hold no separator |
| WireFormat.RecordsRoundTrip | src/plugins/node/prof/nodeprofplugin.cpp:104-105 | reading back a sequence of node lines gives the same records |
| WireFormat.RenderAppend | src/plugins/node/prof/nodeprofplugin.cpp:113-121 | the text of two walks one after the other is the text of the first followed by the text of the second |
| WireFormat.RenderLines | src/plugins/node/prof/nodeprofplugin.cpp:104-105 | the text of a walk splits into one line per emitted record, in visit order |
| WireFormat.StartRoundTrip | src/plugins/node/prof/nodeprofplugin.cpp:128 | the Start line reads back as its time and holds no newline |
| WireFormat.BlobLines | src/plugins/node/prof/nodeprofplugin.cpp:124-132 | a blob splits into the Start line, one line per emitted record in visit order, the End line, and nothing after the last newline |
| WireFormat.BlobRoundTrip | src/plugins/node/prof/nodeprofplugin.cpp:124-132 | reading a blob back gives its timestamp and exactly the records of the extractable nodes in visit order |
| WireFormat.EmittedMembers | src/plugins/node/prof/nodeprofplugin.cpp:96-105 | a record is emitted if and only if it belongs to a visited node whose names can be extracted |
| WireFormat.EmittedHas | src/plugins/node/prof/nodeprofplugin.cpp:96-105 | a visited node whose names can be extracted has its record emitted |
| WireFormat.EmittedSource | src/plugins/node/prof/nodeprofplugin.cpp:96-105 | every emitted record is the record of a visited node whose names can be extracted |
| WireFormat.EmittedAll | src/plugins/node/prof/nodeprofplugin.cpp:85-110 | when every name can be extracted, every visit yields its record, in visit order |
| WireFormat.EmittedIncreasing | src/plugins/node/prof/nodeprofplugin.cpp:113-121 | emitted ids strictly increase and stay within the ids the walk consumed |
| WireFormat.UnextractableNodeLosesOnlyItsLine | src/plugins/node/prof/nodeprofplugin.cpp:96-121 | a node whose names cannot be extracted gets no record, but its id is consumed and every child is still visited with that id as parent and emitted if extractable |
| WireFormat.ExampleVisits | src/plugins/node/prof/nodeprofplugin.cpp:113-121 | a root with one child is visited as id 1 with parent 0, then the child as id 2 with parent 1 |
| WireFormat.ExampleRootLine | src/plugins/node/prof/nodeprofplugin.cpp:104-105 | the root of the example is written `NodeProfData,Node,1,0,main.js,(root),0,0` |
| WireFormat.ExampleChildLine | src/plugins/node/prof/nodeprofplugin.cpp:104-105 | the child of the example is written `NodeProfData,Node,2,1,a.js,foo,12,3` |
| WireFormat.ExampleBlob | src/plugins/node/prof/nodeprofplugin.cpp:124-132 | the first snapshot of a two-node tree is the Start line, two Node lines and the End line, spelled out |
| WireFormat.ExampleBlobWithoutRootLine | src/plugins/node/prof/nodeprofplugin.cpp:96-121 | when the root's names cannot be extracted, its line is missing and the child still has id 2 and parent 1 |
| Serializer.StringStream.Append | src/plugins/node/prof/nodeprofplugin.cpp:104 | appending to the stream extends its text at the end |
| Serializer.NodeSerializer.constructor | src/plugins/node/prof/nodeprofplugin.cpp:114 | the id counter starts at 1 |
| Serializer.NodeSerializer.ConstructNodeData | src/plugins/node/prof/nodeprofplugin.cpp:85-110 | the stream gains the node's line, or nothing when its names cannot be extracted |
| Serializer.NodeSerializer.Visit | src/plugins/node/prof/nodeprofplugin.cpp:113-121 | the counter advances by the subtree's node count, and the stream gains `WalkText`: the node's own text, then each child's subtree in turn, numbered from the counter's old value |
| Serializer.NodeSerializer.VisitChildren | src/plugins/node/prof/nodeprofplugin.cpp:118-120 | the loop over the children walks each child's subtree in order under the parent's id, moving the counter past all of them |
| Serializer.WalkTextRenders | src/plugins/node/prof/nodeprofplugin.cpp:113-121 | what `visit` appends for a subtree is the text of the pre-order walk `Visits`, node by node, with the ids and parents it assigns |
| Serializer.ChildrenTextRenders | src/plugins/node/prof/nodeprofplugin.cpp:118-120 | what the loop appends for the first children is the text of their part of the pre-order walk |
| Serializer.NodeTextInTwoStatements | src/plugins/node/prof/nodeprofplugin.cpp:104-105 | the two stream statements of `ConstructNodeData` append exactly the node's line and its newline |
| Serializer.BlobInStatements | src/plugins/node/prof/nodeprofplugin.cpp:124-132 | the Start line, the walk from the root and the End line, as `ConstructData` writes them, make up exactly the blob |
| Serializer.NodeSerializer.ConstructData | src/plugins/node/prof/nodeprofplugin.cpp:124-132 | the result is the Start line, the walk from the root with parent 0, and the End line; the counter advances by the tree's node count |
| Serializer.SerializeTwice | src/plugins/node/prof/nodeprofplugin.cpp:114-115 | a second snapshot in the same process is numbered from one past the first tree's node count |
| Control.Find | src/plugins/node/prof/nodeprofplugin.cpp:409 | the result is the index of the first comma, or `npos` exactly when there is none |
| Control.ParseControl | src/plugins/node/prof/nodeprofplugin.cpp:396-420 | only messages whose id is `profiling_node` can switch profiling |
| Control.ParseControlWithComma | src/plugins/node/prof/nodeprofplugin.cpp:409-417 | `<command>,<topic>` switches profiling exactly when the topic is `profiling_node_subsystem`, to on exactly when the command is `on` |
| Control.ParseControlWithoutComma | src/plugins/node/prof/nodeprofplugin.cpp:409-417 | a payload with no comma is compared whole with the topic: the bare subsystem name switches off, anything else is dropped |
| Control.ParseControlEnableExample | src/plugins/node/prof/nodeprofplugin.cpp:409-417 | `on,profiling_node_subsystem` switches on |
| Control.ParseControlDisableExample | src/plugins/node/prof/nodeprofplugin.cpp:409-417 | `off,profiling_node_subsystem` switches off |
| Control.ParseControlOtherTopicExample | src/plugins/node/prof/nodeprofplugin.cpp:409-417 | `on,other_topic` is dropped |
| Control.ParseControlBareTopicExample | src/plugins/node/prof/nodeprofplugin.cpp:409-417 | `profiling_node_subsystem` with no comma switches off |
| Control.ConfigValue | src/plugins/node/prof/nodeprofplugin.cpp:250-257 | a configuration body is read only when it starts with `profiling_node_subsystem=` |
| Control.ConfigMessageRoundTrip | src/plugins/node/prof/nodeprofplugin.cpp:250-265 | the configuration message goes to `configuration/profiling_node`, and its body reads back as the state it was published for |
| Control.ConfigMessageInjective | src/plugins/node/prof/nodeprofplugin.cpp:250-265 | the on and off messages differ |
| Plugin.Length32 | src/plugins/node/prof/nodeprofplugin.cpp:224 | the size field is the blob's length when that is below 2^32, and is taken modulo 2^32 otherwise |
| Plugin.NodeProfPlugin.constructor | src/plugins/node/prof/nodeprofplugin.cpp:58-65 | at load: disabled, provider id 0, no timer, no session, nothing sent or pushed |
| Plugin.NodeProfPlugin.PublishEnabled | src/plugins/node/prof/nodeprofplugin.cpp:250-265 | one configuration message for the current state is sent, and nothing else changes |
| Plugin.NodeProfPlugin.StartTheProfiler | src/plugins/node/prof/nodeprofplugin.cpp:160-172 | opens a session, which it may do only when none is open, and counts it |
| Plugin.NodeProfPlugin.StopTheProfiler | src/plugins/node/prof/nodeprofplugin.cpp:176-188 | the session is closed and its profile, possibly absent, is returned |
| Plugin.NodeProfPlugin.RegisterPushSource | src/plugins/node/prof/nodeprofplugin.cpp:332-342 | the plugin is enabled exactly when the property is `on`, keeps the provider id, and offers the `profiling_node` source |
| Plugin.NodeProfPlugin.EnableOnV8Thread | src/plugins/node/prof/nodeprofplugin.cpp:275-289 | when already enabled nothing changes; otherwise it enables, sends `profiling_node_subsystem=on`, opens a session and runs the timer every 5000 ms |
| Plugin.NodeProfPlugin.DisableOnV8Thread | src/plugins/node/prof/nodeprofplugin.cpp:295-310 | when already disabled nothing changes; otherwise it disables, sends `profiling_node_subsystem=off`, stops the timer and closes the session, pushing nothing |
| Plugin.NodeProfPlugin.Tick | src/plugins/node/prof/nodeprofplugin.cpp:200-236 | when disabled nothing changes; when enabled it pushes exactly one blob, serialized from the current counter, if and only if the profiler returned a profile, and always closes the session and opens a new one |
| Plugin.NodeProfPlugin.SetEnabled | src/plugins/node/prof/nodeprofplugin.cpp:315-327 | the requested state is reached, and the change is announced only when it is a change |
| Plugin.NodeProfPlugin.ReceiveMessage | src/plugins/node/prof/nodeprofplugin.cpp:396-420 | a message the parse drops changes nothing; a parsed message sets the state it asks for, announcing it only on a change |
| Plugin.NodeProfPlugin.PluginStart | src/plugins/node/prof/nodeprofplugin.cpp:355-378 | started with no timer, it sends the current state once, creates the timer, and opens a session and runs the timer exactly when enabled |
| Plugin.NodeProfPlugin.PluginStop | src/plugins/node/prof/nodeprofplugin.cpp:380-394 | when disabled nothing changes; when enabled it disables, releases the timer and closes the session, sending and pushing nothing |
| Plugin.SampleThenSwitchOff | src/plugins/node/prof/nodeprofplugin.cpp:200-236 | loaded with profiling on, started, sampled once and switched off by a message: the agent sees the on and off messages and exactly one snapshot, numbered from 1 |
| Plugin.TicksContinueNumbering | src/plugins/node/prof/nodeprofplugin.cpp:200-236 | over three ticks the one without a profile pushes nothing, and the second snapshot continues the first one's numbering |

`NodeProfPlugin.Valid` is the invariant every handler keeps:

- a session is open exactly while the timer runs;
- the timer runs exactly when profiling is enabled and the timer has been created;
- a running timer has timeout and period 5000.

## Left out

- The V8 profiler API (isolate, `CpuProfiler`, `StartProfiling`, `StopProfiling`, `GetTopDownRoot`, profile deletion) is foreign. A tick takes what the profiler returns as a parameter `report`: a tree or nothing. A missing isolate or CPU profiler folds into nothing.
- Plugin.NodeProfPlugin.StartTheProfiler: always opens a session. The source silently does nothing when there is no isolate or CPU profiler, and that case is not modelled.
- Plugin.NodeProfPlugin.DisableOnV8Thread: the profile returned by the stop is discarded, so the model does not say what it was. `PluginStop` does the same.
- libuv is not modelled: async handles, `uv_async_send`, `uv_close`, `cleanupHandle` and `uv_unref`. `SetEnabled` runs the handler at once instead of scheduling it on the event loop. The timer is a value that is absent, stopped or running.
- The async handle that the enable and disable handlers leak when they return early is not modelled.
- Plugin.NodeProfPlugin.EnableOnV8Thread: requires the timer to exist when it would start it. Two cases are excluded. Calling `uv_timer_start` (src/plugins/node/prof/nodeprofplugin.cpp:286) on a timer that `plugin_start` never created is undefined. So is an `on` message that arrives after `plugin_stop` has closed the timer: the close at line 387 frees the handle through `cleanupHandle`, `plugin::timer` is left dangling, and the enable handler then starts a timer in freed memory. The second case is a defect of the source. `DisableOnV8Thread`, `PluginStop`, `SetEnabled` and `ReceiveMessage` require the same through `CanSwitch`.
- Plugin.NodeProfPlugin.PluginStart: requires that no timer exists, as when the agent starts the plugin once after loading it, or again after a stop that closed the timer. A second start while a timer exists is not modelled: the source then allocates a new `uv_timer_t` and leaks the old handle; when profiling is enabled it also starts the new timer while the old one keeps firing, so each period gets two ticks.
- `GetRealTime` reads the clock. The time is a parameter `now`.
- Serializer.NodeSerializer.ConstructNodeData: the sample count is a `nat` written in decimal. The source stores it in a `double`, which `std::stringstream` writes in scientific notation from 1000000 on.
- Serializer.NodeSerializer.ConstructNodeData: names are written in full, as sequences of characters. This matches the source only for names that are ASCII and hold no U+0000. The source copies each name into a C string: a U+0000 ends it there, and a non-ASCII name becomes its UTF-8 bytes. Those bytes can be more than the `Length() + 1` characters that `ExtractV8String` allocates (src/plugins/node/prof/nodeprofplugin.cpp:79), which overruns the buffer; the model does not capture that overrun.
- Serializer.NodeSerializer.Visit: the counter is an unbounded integer. The source's `int` would overflow after 2^31 - 1 nodes.
- The `NULL` result of `ConstructData` is not modelled: it cannot happen. `NewCString`, and copying names out of V8 with `WriteUtf8`, are reduced to the `extractable` flag of each node.
- Plugin.Length32: lengths count characters. The source's `strlen` counts UTF-8 bytes, which differ for non-ASCII names.
- Logging (`logMessage`), `ibmras_monitoring_plugin_init` and `ibmras_monitoring_getVersion` are left out. So are the unused `plugin::profiling` flag and the branches for Node versions before 0.11.
- The agent's interface is left out. The property lookup becomes a parameter. `agentSendMessage` and `agentPushData` append to the `sent` and `pushed` logs.
