/** The projection of Anthropic tool definitions onto Nova Sonic tool specs. */
module ToolAdapter {
  import opened Values

  /** `_convert_one`: the tool's name, description and input schema, re-nested as
      `{"toolSpec": {"name", "description", "inputSchema": {"json"}}}`.  The dict
      literal reads the three keys in that order, so the KeyError names the first
      one the tool lacks. */
  function ConvertOne(tool: seq<(string, Value)>): (r: Result<seq<(string, Value)>>)
    ensures r.Failed? ==> r.error == "KeyError"
    ensures r.Ok? ==> |r.value| == 1 && r.value[0].0 == "toolSpec" && r.value[0].1.Obj?
  {
    match Get(tool, "name")
    case None => Failed("KeyError")
    case Some(name) =>
      match Get(tool, "description")
      case None => Failed("KeyError")
      case Some(description) =>
        match Get(tool, "input_schema")
        case None => Failed("KeyError")
        case Some(schema) =>
          Ok([("toolSpec", Obj([("name", name), ("description", description),
                                ("inputSchema", Obj([("json", schema)]))]))])
  }

  /** `anthropic_to_nova_sonic`: the list comprehension, which stops at the first tool
      that raises. */
  function AnthropicToNovaSonic(tools: seq<seq<(string, Value)>>): (r: Result<seq<seq<(string, Value)>>>)
    ensures r.Failed? ==> r.error == "KeyError"
    ensures r.Ok? ==> |r.value| == |tools| && forall i :: 0 <= i < |tools| ==> Keys(r.value[i]) == ["toolSpec"]
  {
    if tools == [] then Ok([])
    else
      match ConvertOne(tools[0])
      case Failed(e) => Failed(e)
      case Ok(spec) =>
        match AnthropicToNovaSonic(tools[1..])
        case Failed(e) => Failed(e)
        case Ok(rest) => Ok([spec] + rest)
  }

  /** Reads an Anthropic tool back out of a Nova Sonic tool spec; None for a dict that
      is not shaped like one. */
  function NovaToAnthropic(spec: seq<(string, Value)>): Option<seq<(string, Value)>>
  {
    match Get(spec, "toolSpec")
    case Some(Obj(inner)) =>
      (match (Get(inner, "name"), Get(inner, "description"), Get(inner, "inputSchema"))
       case (Some(name), Some(description), Some(Obj(wrapper))) =>
         (match Get(wrapper, "json")
          case Some(schema) =>
            Some([("name", name), ("description", description), ("input_schema", schema)])
          case None => None)
       case _ => None)
    case _ => None
  }

  /** A tool converts exactly when it has all three keys; otherwise the error names the
      first missing one. */
  lemma ConvertOneFails(tool: seq<(string, Value)>)
    ensures ConvertOne(tool).Ok? <==>
      "name" in Keys(tool) && "description" in Keys(tool) && "input_schema" in Keys(tool)
    ensures "name" !in Keys(tool) ==> ConvertOne(tool) == Failed("KeyError")
    ensures "name" in Keys(tool) && "description" !in Keys(tool) ==>
      ConvertOne(tool) == Failed("KeyError")
    ensures "name" in Keys(tool) && "description" in Keys(tool) && "input_schema" !in Keys(tool) ==>
      ConvertOne(tool) == Failed("KeyError")
  {
    GetFindsKey(tool, "name");
    GetFindsKey(tool, "description");
    GetFindsKey(tool, "input_schema");
  }

  /** The spec carries the tool's own name and description, and its input schema
      unchanged under `inputSchema.json`; reading it back gives those three values. */
  lemma ConvertOneKeepsTool(tool: seq<(string, Value)>)
    requires ConvertOne(tool).Ok?
    ensures var spec := ConvertOne(tool).value;
      Keys(spec) == ["toolSpec"] &&
      NovaToAnthropic(spec) ==
        Some([("name", Get(tool, "name").value), ("description", Get(tool, "description").value),
              ("input_schema", Get(tool, "input_schema").value)])
  {
    var name := Get(tool, "name").value;
    var description := Get(tool, "description").value;
    var schema := Get(tool, "input_schema").value;
    ThreeKeys("name", name, "description", description, "inputSchema", Obj([("json", schema)]));
  }

  /** A tool holding exactly the three Anthropic keys survives the round trip. */
  lemma RoundTrip(name: Value, description: Value, schema: Value)
    ensures var tool := [("name", name), ("description", description), ("input_schema", schema)];
      ConvertOne(tool).Ok? && NovaToAnthropic(ConvertOne(tool).value) == Some(tool)
  {
    var tool := [("name", name), ("description", description), ("input_schema", schema)];
    ThreeKeys("name", name, "description", description, "input_schema", schema);
    ConvertOneKeepsTool(tool);
  }

  /** The list converts exactly when every tool does; the result then has one spec per
      tool, in the same order (an empty list gives an empty list), and otherwise the
      error is the first failing tool's. */
  lemma {:induction false} ConvertsEveryTool(tools: seq<seq<(string, Value)>>)
    ensures AnthropicToNovaSonic(tools).Ok? <==> forall i :: 0 <= i < |tools| ==> ConvertOne(tools[i]).Ok?
    ensures AnthropicToNovaSonic(tools).Ok? ==>
      var specs := AnthropicToNovaSonic(tools).value;
      |specs| == |tools| && forall i :: 0 <= i < |tools| ==> specs[i] == ConvertOne(tools[i]).value
    ensures AnthropicToNovaSonic(tools).Failed? ==>
      exists k :: 0 <= k < |tools| && ConvertOne(tools[k]).Failed? &&
        AnthropicToNovaSonic(tools).error == ConvertOne(tools[k]).error &&
        forall i :: 0 <= i < k ==> ConvertOne(tools[i]).Ok?
  {
    if tools != [] {
      ConvertsEveryTool(tools[1..]);
      assert forall i :: 1 <= i < |tools| ==> tools[1..][i - 1] == tools[i];
      if ConvertOne(tools[0]).Ok? && AnthropicToNovaSonic(tools[1..]).Failed? {
        var k :| 0 <= k < |tools[1..]| && ConvertOne(tools[1..][k]).Failed? &&
          AnthropicToNovaSonic(tools[1..]).error == ConvertOne(tools[1..][k]).error &&
          forall i :: 0 <= i < k ==> ConvertOne(tools[1..][i]).Ok?;
        assert forall i :: 0 < i < k + 1 ==> ConvertOne(tools[i]).Ok? by {
          forall i | 0 < i < k + 1 ensures ConvertOne(tools[i]).Ok? {
            assert tools[1..][i - 1] == tools[i];
          }
        }
        assert ConvertOne(tools[k + 1]).Failed?;
      }
    }
  }
}
