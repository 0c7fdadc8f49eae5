/** The plugin's side of the agent's message channel: the control messages it receives
    (`ibmras_monitoring_receiveMessage`) and the configuration message it sends
    (`publishEnabled`). */
module Control {
  import opened Wrappers

  /** The name the plugin registers its push source under, and the id control messages
      for it carry. */
  const SourceName: string := "profiling_node"

  /** The topic a control message must name to switch profiling. */
  const SubsystemTopic: string := "profiling_node_subsystem"

  /** `std::string::npos`: the largest value of a 64-bit `size_t`. */
  const NPos: nat := 0xFFFF_FFFF_FFFF_FFFF

  /** `find(c)`: the index of the first `c` in `s`, or `npos` when there is none. */
  function Find(s: string, c: char): (r: nat)
    requires |s| < NPos
    ensures r == NPos <==> c !in s
    ensures r != NPos ==> r < |s| && s[r] == c && c !in s[..r]
  {
    if c !in s then NPos else FirstIndex(s, c)
  }

  function FirstIndex(s: string, c: char): (r: nat)
    requires c in s
    ensures r < |s| && s[r] == c && c !in s[..r]
  {
    if s[0] == c then 0
    else
      var r := 1 + FirstIndex(s[1..], c);
      assert s[..r] == [s[0]] + s[1..][..r - 1];
      r
  }

  /** `substr(pos, count)`: at most `count` characters of `s` from `pos` on. */
  function Substr(s: string, pos: nat, count: nat): (r: string)
    requires pos <= |s|
    ensures |r| <= count && r <= s[pos..]
    ensures pos + count >= |s| ==> r == s[pos..]
  {
    if pos + count >= |s| then s[pos..] else s[pos..pos + count]
  }

  /** What a control message asks for: `Some(v)` is a call of `setEnabled(v)`, `None`
      means the message is dropped. The payload is split at its first comma into a
      command and a topic; the `+ 1` after `find` is taken modulo 2^64, as `size_t`
      arithmetic does, so with no comma the topic is the whole payload. */
  function ParseControl(id: string, payload: string): (r: Option<bool>)
    requires |payload| < 0x1_0000_0000
    ensures r.Some? ==> id == SourceName
  {
    if id != SourceName then None
    else
      var found := Find(payload, ',');
      var command := Substr(payload, 0, found);
      var rest := Substr(payload, (found + 1) % (NPos + 1), NPos);
      if rest == SubsystemTopic then Some(command == "on") else None
  }

  /** A payload `<command>,<topic>` whose command has no comma switches profiling exactly
      when the topic is the subsystem, to on exactly when the command is `on`. */
  lemma {:induction false} ParseControlWithComma(command: string, topic: string)
    requires ',' !in command
    requires |command| + 1 + |topic| < 0x1_0000_0000
    ensures ParseControl(SourceName, command + "," + topic)
         == if topic == SubsystemTopic then Some(command == "on") else None
  {
    var payload := command + "," + topic;
    assert payload[|command|] == ',';
    assert payload[..|command|] == command;
    assert payload[|command| + 1..] == topic;
    assert Find(payload, ',') == |command|;
    assert (|command| + 1) % (NPos + 1) == |command| + 1;
    assert Substr(payload, 0, |command|) == command;
    assert Substr(payload, |command| + 1, NPos) == topic;
  }

  /** A payload without a comma is matched whole against the topic: the bare subsystem
      name asks to disable, anything else is dropped. */
  lemma {:induction false} ParseControlWithoutComma(payload: string)
    requires ',' !in payload
    requires |payload| < 0x1_0000_0000
    ensures ParseControl(SourceName, payload)
         == if payload == SubsystemTopic then Some(false) else None
  {
    assert Find(payload, ',') == NPos;
    assert (NPos + 1) % (NPos + 1) == 0;
  }

  /** Worked case of the parse: `on,profiling_node_subsystem` enables. */
  lemma ParseControlEnableExample()
    ensures ParseControl(SourceName, "on" + "," + SubsystemTopic) == Some(true)
  {
    ParseControlWithComma("on", SubsystemTopic);
  }

  /** Worked case of the parse: any other command for the subsystem disables. */
  lemma ParseControlDisableExample()
    ensures ParseControl(SourceName, "off" + "," + SubsystemTopic) == Some(false)
  {
    ParseControlWithComma("off", SubsystemTopic);
  }

  /** Worked case of the parse: a command for another topic is dropped. */
  lemma ParseControlOtherTopicExample()
    ensures ParseControl(SourceName, "on,other_topic") == None
  {
    assert "on,other_topic" == "on" + "," + "other_topic";
    ParseControlWithComma("on", "other_topic");
  }

  /** Worked case of the parse: the bare topic asks to disable. */
  lemma ParseControlBareTopicExample()
    ensures ParseControl(SourceName, "profiling_node_subsystem") == Some(false)
  {
    ParseControlWithoutComma(SubsystemTopic);
  }

  /** A message the plugin sends to the agent: a topic and a text body. */
  datatype Message = Message(topic: string, body: string)

  /** The body of the configuration message `publishEnabled` sends. */
  function ConfigBody(on: bool): string {
    SubsystemTopic + "=" + (if on then "on" else "off")
  }

  /** The configuration message `publishEnabled` sends, on the topic
      `configuration/profiling_node`. */
  function ConfigMessage(on: bool): Message {
    Message("configuration/" + SourceName, ConfigBody(on))
  }

  /** How the agent reads a configuration body back: the setting after `<topic>=`. */
  function ConfigValue(body: string): (r: Option<bool>)
    ensures r.Some? ==> SubsystemTopic + "=" <= body
  {
    var prefix := SubsystemTopic + "=";
    if prefix <= body && body[|prefix|..] in {"on", "off"}
    then Some(body[|prefix|..] == "on")
    else None
  }

  /** The configuration message carries the state it was published for, on the
      plugin's configuration topic. */
  lemma {:induction false} ConfigMessageRoundTrip(on: bool)
    ensures ConfigMessage(on).topic == "configuration/profiling_node"
    ensures ConfigValue(ConfigMessage(on).body) == Some(on)
  {
    var prefix := SubsystemTopic + "=";
    var value := if on then "on" else "off";
    assert ConfigBody(on) == prefix + value;
    assert (prefix + value)[..|prefix|] == prefix;
    assert (prefix + value)[|prefix|..] == value;
  }

  /** Different states give different messages, so the agent can tell them apart. */
  lemma {:induction false} ConfigMessageInjective(a: bool, b: bool)
    requires ConfigMessage(a) == ConfigMessage(b)
    ensures a == b
  {
    ConfigMessageRoundTrip(a);
    ConfigMessageRoundTrip(b);
  }
}
