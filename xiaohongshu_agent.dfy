/** `XiaoHongShuAgent` (whereeatai/agents/xiaohongshu_agent.py). */
module XiaoHongShuAgent {
  import opened Values
  import opened BaseAgent
  import A2AProtocol

  const Name := "XiaoHongShuAgent"
  const Description := "用于识别和分析小红书笔记内容的Agent"
  const AgentId := "xiaohongshu_agent"

  const Info := Init(Name, Description, Some(AgentId))

  const Required: seq<string> := ["note_content"]

  /** `get_capabilities`: one capability whose input schema lists the keys `execute` requires. */
  function Capabilities(): (caps: seq<A2AProtocol.Capability>)
    ensures |caps| == 1 && caps[0].name == "analyze_xiaohongshu" && caps[0].estimatedDuration == 10
    ensures "required" in caps[0].inputSchema && caps[0].inputSchema["required"] == StrList(Required)
  {
    [A2AProtocol.Capability(
      "analyze_xiaohongshu",
      "分析小红书笔记内容提取旅游信息",
      map["type" := Str("object"),
          "properties" := Obj(map["note_content" := Obj(map["type" := Str("string")])]),
          "required" := List([Str("note_content")])],
      map["type" := Str("object")],
      10)]
  }

  /** `execute`: the prompt shows every value with `str()`, which cannot fail. */
  function Execute(input: Dict, gen: Generator): (c: Call)
    ensures !ValidateInput(input, Required) ==> c == Reject(Required)
    ensures ValidateInput(input, Required) ==>
      |c.prompts| == 1 && c.prompts[0].agent == Info.name &&
      (gen(c.prompts[0]).Failed? ==> c.outcome == Raised(gen(c.prompts[0]).fault))
    // the prompt also sees note_images and note_tags, each defaulting to []
    ensures ValidateInput(input, Required) ==>
      var fields := c.prompts[0].fields;
      fields.Keys == {"note_content", "note_images", "note_tags"} &&
      fields["note_content"] == input["note_content"] &&
      fields["note_images"] == GetOr(input, "note_images", List([])) &&
      fields["note_tags"] == GetOr(input, "note_tags", List([]))
    ensures ValidateInput(input, Required) && gen(c.prompts[0]).Generated? ==>
      var data := DataOf(c);
      c.outcome == Returned(SuccessResult("小红书笔记分析成功", data)) &&
      data.Keys == {"note_content", "analysis_result"} &&
      data["note_content"] == input["note_content"] &&
      data["analysis_result"] == Str(gen(c.prompts[0]).text)
  {
    if !ValidateInput(input, Required) then Reject(Required)
    else
      var fields := map[
        "note_content" := input["note_content"],
        "note_images" := GetOr(input, "note_images", List([])),
        "note_tags" := GetOr(input, "note_tags", List([]))];
      Respond(Prompt(Info.name, fields), gen, "小红书笔记分析成功", map["note_content" := input["note_content"]], "analysis_result")
  }
}
