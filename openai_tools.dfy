/** src/utils/convert-to-openai-tools.ts: the function tools and the tool choice
    of a call, in the request vocabulary of the upstream service. */
module OpenAITools {
  import opened Wrappers
  import opened Json

  /** A function tool of the call options (name, optional description, JSON schema). */
  datatype FunctionTool = FunctionTool(name: string, description: Option<string>, parameters: Json)

  /** The tool choice of the call options. `ChoiceOther` is a choice whose `type`
      is none of the four known ones (the switch's default branch). */
  datatype ToolChoice =
    | ChoiceAuto
    | ChoiceNone
    | ChoiceRequired
    | ChoiceTool(toolName: string)
    | ChoiceOther(choiceType: string)

  datatype OpenAIFunction = OpenAIFunction(name: string, description: Option<string>, parameters: Json)

  /** `{ type: 'function', function: {...} }`. */
  datatype OpenAITool = OpenAITool(toolType: string, fn: OpenAIFunction)

  /** `'none' | 'auto' | 'required'` or `{ type: 'function', function: { name } }`. */
  datatype OpenAIToolChoice =
    | ChoiceMode(mode: string)
    | ChoiceFunction(choiceType: string, functionName: string)

  function ConvertTool(tool: FunctionTool): (t: OpenAITool)
    ensures t.toolType == "function"
    ensures t.fn.name == tool.name
    ensures t.fn.description == tool.description
    ensures t.fn.parameters == tool.parameters
  {
    OpenAITool("function", OpenAIFunction(tool.name, tool.description, tool.parameters))
  }

  /** Reads a converted tool back as a function tool. */
  function ToolOf(t: OpenAITool): FunctionTool
  {
    FunctionTool(t.fn.name, t.fn.description, t.fn.parameters)
  }

  /** `convertToOpenAITools`: undefined for undefined or empty input, otherwise one
      converted entry per tool, in order. */
  function ConvertToOpenAITools(tools: Option<seq<FunctionTool>>): (r: Option<seq<OpenAITool>>)
    ensures r.None? <==> tools.None? || |tools.value| == 0
    ensures r.Some? ==> |r.value| == |tools.value|
    ensures r.Some? ==> forall i :: 0 <= i < |r.value| ==>
      r.value[i].toolType == "function" && ToolOf(r.value[i]) == tools.value[i]
  {
    match tools
    case None => None
    case Some(ts) =>
      if |ts| == 0 then None
      else Some(seq(|ts|, i requires 0 <= i < |ts| => ConvertTool(ts[i])))
  }

  /** Converting and reading back gives the original tools: nothing is lost or reordered. */
  lemma ConvertToOpenAIToolsRoundTrip(tools: seq<FunctionTool>)
    requires |tools| > 0
    ensures var r := ConvertToOpenAITools(Some(tools));
      r.Some? && seq(|r.value|, i requires 0 <= i < |r.value| => ToolOf(r.value[i])) == tools
  {
  }

  /** `convertToOpenAIToolChoice`. */
  function ConvertToOpenAIToolChoice(toolChoice: Option<ToolChoice>): (r: Option<OpenAIToolChoice>)
    ensures toolChoice.None? ==> r.None?
    ensures r.None? <==> toolChoice.None? || toolChoice.value.ChoiceOther?
    ensures toolChoice == Some(ChoiceNone) <==> r == Some(ChoiceMode("none"))
    ensures toolChoice == Some(ChoiceAuto) <==> r == Some(ChoiceMode("auto"))
    ensures toolChoice == Some(ChoiceRequired) <==> r == Some(ChoiceMode("required"))
    ensures r.Some? && r.value.ChoiceFunction? <==> toolChoice.Some? && toolChoice.value.ChoiceTool?
    ensures r.Some? && r.value.ChoiceFunction? ==>
      r.value.choiceType == "function" && r.value.functionName == toolChoice.value.toolName
  {
    match toolChoice
    case None => None
    case Some(c) =>
      match c
      case ChoiceNone => Some(ChoiceMode("none"))
      case ChoiceAuto => Some(ChoiceMode("auto"))
      case ChoiceRequired => Some(ChoiceMode("required"))
      case ChoiceTool(name) => Some(ChoiceFunction("function", name))
      case ChoiceOther(_) => None
  }
}
