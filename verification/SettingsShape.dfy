/** The settings structs themselves: their fields, types and defaults (src/settings.rs:11-604). */
module SettingsShape {
  import opened Basics
  import opened DottedPaths
  import opened Decimals
  import opened SettingsTree

  const U16: int := 0xFFFF
  const U32: int := 0xFFFF_FFFF

  type Kinds = map<string, Kind>

  function Embeddings(): Kinds {
    map["enabled" := Flag(false), "provider" := Text("nearai"), "model" := Text("text-embedding-3-small")]
  }

  function Tunnel(): Kinds {
    map["public_url" := MaybeText, "provider" := MaybeText, "cf_token" := MaybeText, "ngrok_token" := MaybeText,
        "ngrok_domain" := MaybeText, "ts_funnel" := Flag(false), "ts_hostname" := MaybeText,
        "custom_command" := MaybeText, "custom_health_url" := MaybeText, "custom_url_pattern" := MaybeText]
  }

  function Channels(): Kinds { SignalChannels() + OtherChannels() }

  function OtherChannels(): Kinds {
    map["http_enabled" := Flag(false), "http_port" := MaybeUnsigned(U16), "http_host" := MaybeText,
        "telegram_owner_id" := MaybeSigned, "wasm_channels" := Texts, "wasm_channels_enabled" := Flag(true),
        "wasm_channels_dir" := MaybeText]
  }

  function SignalChannels(): Kinds {
    map["signal_enabled" := Flag(false), "signal_http_url" := MaybeText, "signal_account" := MaybeText,
        "signal_allow_from" := MaybeText, "signal_allow_from_groups" := MaybeText, "signal_dm_policy" := MaybeText,
        "signal_group_policy" := MaybeText, "signal_group_allow_from" := MaybeText]
  }

  function Heartbeat(): Kinds {
    map["enabled" := Flag(false), "interval_secs" := Unsigned(U64_MAX, 1800), "notify_channel" := MaybeText,
        "notify_user" := MaybeText]
  }

  function Agent(): Kinds {
    map["name" := Text("superwave"), "max_parallel_jobs" := Unsigned(U32, 5), "job_timeout_secs" := Unsigned(U64_MAX, 3600),
        "stuck_threshold_secs" := Unsigned(U64_MAX, 300), "use_planning" := Flag(true),
        "repair_check_interval_secs" := Unsigned(U64_MAX, 60), "max_repair_attempts" := Unsigned(U32, 3),
        "session_idle_timeout_secs" := Unsigned(U64_MAX, 604800), "max_tool_iterations" := Unsigned(U64_MAX, 50),
        "auto_approve_tools" := Flag(false)]
  }

  function Wasm(): Kinds {
    map["enabled" := Flag(true), "tools_dir" := MaybeText, "default_memory_limit" := Unsigned(U64_MAX, 10485760),
        "default_timeout_secs" := Unsigned(U64_MAX, 60), "default_fuel_limit" := Unsigned(U64_MAX, 10000000),
        "cache_compiled" := Flag(true), "cache_dir" := MaybeText]
  }

  function Sandbox(): Kinds {
    map["enabled" := Flag(true), "policy" := Text("readonly"), "timeout_secs" := Unsigned(U64_MAX, 120),
        "memory_limit_mb" := Unsigned(U64_MAX, 2048), "cpu_shares" := Unsigned(U32, 1024),
        "image" := Text("superwave-worker:latest"), "auto_pull_image" := Flag(true), "extra_allowed_domains" := Texts]
  }

  function Safety(): Kinds {
    map["max_output_length" := Unsigned(U64_MAX, 100000), "injection_check_enabled" := Flag(true)]
  }

  function Builder(): Kinds {
    map["enabled" := Flag(true), "build_dir" := MaybeText, "max_iterations" := Unsigned(U32, 20),
        "timeout_secs" := Unsigned(U64_MAX, 600), "auto_register" := Flag(true)]
  }

  /** The fields of the top struct that are not structs. */
  function Top(): Kinds {
    map["onboard_completed" := Flag(false), "database_backend" := MaybeText, "database_url" := MaybeText,
        "database_pool_size" := MaybeUnsigned(U64_MAX), "libsql_path" := MaybeText, "libsql_url" := MaybeText,
        "secrets_master_key_source" := Choice({"keychain", "env", "none"}, "none"), "llm_backend" := MaybeText,
        "ollama_base_url" := MaybeText, "openai_compatible_base_url" := MaybeText, "selected_model" := MaybeText]
  }

  function Leaves(kinds: Kinds): map<string, Shape> { map k | k in kinds :: Leaf(kinds[k]) }

  function Group(kinds: Kinds): Shape { Section(Leaves(kinds), map[]) }

  function Sections(embeddings: Kinds, tunnel: Kinds, channels: Kinds, heartbeat: Kinds, agent: Kinds, wasm: Kinds,
                    sandbox: Kinds, safety: Kinds, builder: Kinds): map<string, Kinds> {
    map["embeddings" := embeddings, "tunnel" := tunnel, "channels" := channels, "heartbeat" := heartbeat,
        "agent" := agent, "wasm" := wasm, "sandbox" := sandbox, "safety" := safety, "builder" := builder]
  }

  const ALIAS := "setup_completed"

  /** `onboard_completed` is also read as `setup_completed`. */
  function Root(top: Kinds, sections: map<string, Kinds>): Shape {
    Section(Leaves(top) + (map k | k in sections :: Group(sections[k])), map["onboard_completed" := ALIAS])
  }

  function Settings(): Shape {
    Root(Top(), Sections(Embeddings(), Tunnel(), Channels(), Heartbeat(), Agent(), Wasm(), Sandbox(), Safety(), Builder()))
  }

  // ---------------------------------------------------------------- the shape is proper

  predicate ProperKinds(kinds: Kinds) {
    forall k :: k in kinds ==> PlainName(k) && ProperKind(kinds[k])
  }

  lemma GroupIsProper(kinds: Kinds)
    requires ProperKinds(kinds)
    ensures Proper(Group(kinds))
  {
  }

  lemma EmbeddingsIsProper()
    ensures ProperKinds(Embeddings())
  {
  }

  lemma TunnelIsProper()
    ensures ProperKinds(Tunnel())
  {
  }

  lemma SignalIsProper()
    ensures ProperKinds(SignalChannels())
  {
  }

  lemma OtherChannelsAreProper()
    ensures ProperKinds(OtherChannels())
  {
  }

  lemma TogetherProper(a: Kinds, b: Kinds)
    requires ProperKinds(a) && ProperKinds(b)
    ensures ProperKinds(a + b)
  {
  }

  lemma ChannelsIsProper()
    ensures ProperKinds(Channels())
  {
    SignalIsProper();
    OtherChannelsAreProper();
    TogetherProper(SignalChannels(), OtherChannels());
  }

  lemma HeartbeatIsProper()
    ensures ProperKinds(Heartbeat())
  {
  }

  lemma AgentIsProper()
    ensures ProperKinds(Agent())
  {
  }

  lemma WasmIsProper()
    ensures ProperKinds(Wasm())
  {
  }

  lemma SandboxIsProper()
    ensures ProperKinds(Sandbox())
  {
  }

  lemma SafetyIsProper()
    ensures ProperKinds(Safety())
  {
  }

  lemma BuilderIsProper()
    ensures ProperKinds(Builder())
  {
  }

  lemma TopIsProper()
    ensures ProperKinds(Top())
  {
  }

  predicate ProperSections(sections: map<string, Kinds>) {
    ALIAS !in sections && forall k :: k in sections ==> PlainName(k) && ProperKinds(sections[k])
  }

  lemma AliasIsNoField()
    ensures ALIAS !in Top()
  {
    forall k | k in Top() ensures k != ALIAS {
      assert |k| != |ALIAS| || k[0] != ALIAS[0];
    }
  }

  lemma SectionsArePlain(embeddings: Kinds, tunnel: Kinds, channels: Kinds, heartbeat: Kinds, agent: Kinds, wasm: Kinds,
                         sandbox: Kinds, safety: Kinds, builder: Kinds)
    ensures
      var sections := Sections(embeddings, tunnel, channels, heartbeat, agent, wasm, sandbox, safety, builder);
      ALIAS !in sections && forall k :: k in sections ==> PlainName(k)
  {
    var sections := Sections(embeddings, tunnel, channels, heartbeat, agent, wasm, sandbox, safety, builder);
    forall k | k in sections ensures PlainName(k) && k != ALIAS {
      assert |k| != |ALIAS|;
    }
  }

  lemma SectionsAreProper(embeddings: Kinds, tunnel: Kinds, channels: Kinds, heartbeat: Kinds, agent: Kinds, wasm: Kinds,
                          sandbox: Kinds, safety: Kinds, builder: Kinds)
    requires ProperKinds(embeddings) && ProperKinds(tunnel) && ProperKinds(channels) && ProperKinds(heartbeat)
    requires ProperKinds(agent) && ProperKinds(wasm) && ProperKinds(sandbox) && ProperKinds(safety) && ProperKinds(builder)
    ensures ProperSections(Sections(embeddings, tunnel, channels, heartbeat, agent, wasm, sandbox, safety, builder))
  {
    SectionsArePlain(embeddings, tunnel, channels, heartbeat, agent, wasm, sandbox, safety, builder);
  }

  lemma RootIsProper(top: Kinds, sections: map<string, Kinds>)
    requires ProperKinds(top) && "onboard_completed" in top && ALIAS !in top && ProperSections(sections)
    ensures Proper(Root(top, sections))
  {
    forall k | k in sections ensures Proper(Group(sections[k])) {
      GroupIsProper(sections[k]);
    }
  }

  /** The real settings satisfy what the laws of the tree ask of a shape. */
  lemma SettingsAreProper()
    ensures Proper(Settings()) && Settings().Section?
  {
    EmbeddingsIsProper();
    TunnelIsProper();
    ChannelsIsProper();
    HeartbeatIsProper();
    AgentIsProper();
    WasmIsProper();
    SandboxIsProper();
    SafetyIsProper();
    BuilderIsProper();
    TopIsProper();
    AliasIsNoField();
    SectionsAreProper(Embeddings(), Tunnel(), Channels(), Heartbeat(), Agent(), Wasm(), Sandbox(), Safety(), Builder());
    RootIsProper(Top(), Sections(Embeddings(), Tunnel(), Channels(), Heartbeat(), Agent(), Wasm(), Sandbox(), Safety(), Builder()));
  }

  // ---------------------------------------------------------------- and has room

  predicate RoomyKinds(kinds: Kinds) {
    (exists k :: k in kinds) && forall k :: k in kinds ==> RoomyKind(kinds[k])
  }

  lemma EmbeddingsAreRoomy()
    ensures RoomyKinds(Embeddings())
  {
    assert "enabled" in Embeddings();
  }

  lemma TunnelIsRoomy()
    ensures RoomyKinds(Tunnel())
  {
    assert "provider" in Tunnel();
  }

  lemma SignalIsRoomy()
    ensures RoomyKinds(SignalChannels())
  {
    assert "signal_enabled" in SignalChannels();
  }

  lemma OtherChannelsAreRoomy()
    ensures RoomyKinds(OtherChannels())
  {
    assert "http_enabled" in OtherChannels();
  }

  lemma TogetherRoomy(a: Kinds, b: Kinds)
    requires RoomyKinds(a) && RoomyKinds(b)
    ensures RoomyKinds(a + b)
  {
    var k :| k in b;
    assert k in a + b;
  }

  lemma ChannelsAreRoomy()
    ensures RoomyKinds(Channels())
  {
    SignalIsRoomy();
    OtherChannelsAreRoomy();
    TogetherRoomy(SignalChannels(), OtherChannels());
  }

  lemma HeartbeatIsRoomy()
    ensures RoomyKinds(Heartbeat())
  {
    assert "enabled" in Heartbeat();
  }

  lemma AgentIsRoomy()
    ensures RoomyKinds(Agent())
  {
    assert "name" in Agent();
  }

  lemma WasmIsRoomy()
    ensures RoomyKinds(Wasm())
  {
    assert "enabled" in Wasm();
  }

  lemma SandboxIsRoomy()
    ensures RoomyKinds(Sandbox())
  {
    assert "enabled" in Sandbox();
  }

  lemma SafetyIsRoomy()
    ensures RoomyKinds(Safety())
  {
    assert "injection_check_enabled" in Safety();
  }

  lemma BuilderIsRoomy()
    ensures RoomyKinds(Builder())
  {
    assert "enabled" in Builder();
  }

  lemma TopIsRoomy()
    ensures forall k :: k in Top() ==> RoomyKind(Top()[k])
  {
    assert "env" in {"keychain", "env", "none"} && |"env"| != |"none"|;
  }

  predicate RoomySections(sections: map<string, Kinds>) {
    "agent" in sections && forall k :: k in sections ==> RoomyKinds(sections[k])
  }

  lemma SectionsAreRoomy(embeddings: Kinds, tunnel: Kinds, channels: Kinds, heartbeat: Kinds, agent: Kinds, wasm: Kinds,
                         sandbox: Kinds, safety: Kinds, builder: Kinds)
    requires RoomyKinds(embeddings) && RoomyKinds(tunnel) && RoomyKinds(channels) && RoomyKinds(heartbeat)
    requires RoomyKinds(agent) && RoomyKinds(wasm) && RoomyKinds(sandbox) && RoomyKinds(safety) && RoomyKinds(builder)
    ensures RoomySections(Sections(embeddings, tunnel, channels, heartbeat, agent, wasm, sandbox, safety, builder))
  {
  }

  lemma GroupIsRoomy(kinds: Kinds)
    requires RoomyKinds(kinds)
    ensures Roomy(Group(kinds))
  {
    var k :| k in kinds;
    assert k in Leaves(kinds);
  }

  lemma RootIsRoomy(top: Kinds, sections: map<string, Kinds>)
    requires RoomySections(sections) && forall k :: k in top ==> RoomyKind(top[k])
    ensures Roomy(Root(top, sections))
  {
    var groups := map k | k in sections :: Group(sections[k]);
    forall k | k in groups ensures Roomy(groups[k]) { GroupIsRoomy(sections[k]); }
    var fields := Leaves(top) + groups;
    assert "agent" in fields;
    forall k | k in fields ensures Roomy(fields[k]) {
    }
  }

  /** Every field of the real settings has more than one value. */
  lemma SettingsAreRoomy()
    ensures Roomy(Settings())
  {
    EmbeddingsAreRoomy();
    TunnelIsRoomy();
    ChannelsAreRoomy();
    HeartbeatIsRoomy();
    AgentIsRoomy();
    WasmIsRoomy();
    SandboxIsRoomy();
    SafetyIsRoomy();
    BuilderIsRoomy();
    TopIsRoomy();
    SectionsAreRoomy(Embeddings(), Tunnel(), Channels(), Heartbeat(), Agent(), Wasm(), Sandbox(), Safety(), Builder());
    RootIsRoomy(Top(), Sections(Embeddings(), Tunnel(), Channels(), Heartbeat(), Agent(), Wasm(), Sandbox(), Safety(), Builder()));
  }

  // ---------------------------------------------------------------- single fields

  lemma RootFields(top: Kinds, sections: map<string, Kinds>, field: string)
    ensures field in top && field !in sections ==> ShapeAt(Root(top, sections), [field]) == Some(Leaf(top[field]))
    ensures forall name :: field in sections && name in sections[field] ==>
      ShapeAt(Root(top, sections), [field, name]) == Some(Leaf(sections[field][name]))
  {
    assert [field][1..] == [];
    forall name | field in sections && name in sections[field]
      ensures ShapeAt(Root(top, sections), [field, name]) == Some(Leaf(sections[field][name]))
    {
      assert [field, name][1..] == [name] && [name][1..] == [];
      assert ShapeAt(Group(sections[field]), [name]) == Some(Leaf(sections[field][name]));
    }
  }

  lemma SectionNames(embeddings: Kinds, tunnel: Kinds, channels: Kinds, heartbeat: Kinds, agent: Kinds, wasm: Kinds,
                     sandbox: Kinds, safety: Kinds, builder: Kinds)
    ensures
      var sections := Sections(embeddings, tunnel, channels, heartbeat, agent, wasm, sandbox, safety, builder);
      "selected_model" !in sections && "agent" in sections && sections["agent"] == agent
  {
    var sections := Sections(embeddings, tunnel, channels, heartbeat, agent, wasm, sandbox, safety, builder);
    forall k | k in sections ensures k != "selected_model" {
      assert |k| != |"selected_model"|;
    }
  }

  lemma SelectedModelIn(top: Kinds)
    requires top == Top()
    ensures "selected_model" in top && top["selected_model"] == MaybeText
  {
  }

  lemma NameIn(agent: Kinds)
    requires agent == Agent()
    ensures "name" in agent && agent["name"] == Text("superwave")
  {
  }

  lemma TwoFieldsOf(top: Kinds, embeddings: Kinds, tunnel: Kinds, channels: Kinds, heartbeat: Kinds, agent: Kinds, wasm: Kinds,
                    sandbox: Kinds, safety: Kinds, builder: Kinds)
    requires "selected_model" in top && top["selected_model"] == MaybeText
    requires "name" in agent && agent["name"] == Text("superwave")
    ensures
      var root := Root(top, Sections(embeddings, tunnel, channels, heartbeat, agent, wasm, sandbox, safety, builder));
      && ShapeAt(root, ["selected_model"]) == Some(Leaf(MaybeText))
      && ShapeAt(root, ["agent", "name"]) == Some(Leaf(Text("superwave")))
  {
    var sections := Sections(embeddings, tunnel, channels, heartbeat, agent, wasm, sandbox, safety, builder);
    SectionNames(embeddings, tunnel, channels, heartbeat, agent, wasm, sandbox, safety, builder);
    RootFields(top, sections, "selected_model");
    RootFields(top, sections, "agent");
  }

  /** The selected model is an optional text, the agent's name a text in a section. */
  lemma TwoFields()
    ensures ShapeAt(Settings(), ["selected_model"]) == Some(Leaf(MaybeText))
    ensures ShapeAt(Settings(), ["agent", "name"]) == Some(Leaf(Text("superwave")))
  {
    SelectedModelIn(Top());
    NameIn(Agent());
    TwoFieldsOf(Top(), Embeddings(), Tunnel(), Channels(), Heartbeat(), Agent(), Wasm(), Sandbox(), Safety(), Builder());
  }
}
