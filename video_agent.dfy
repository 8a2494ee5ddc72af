/** `VideoAgent` (whereeatai/agents/video_agent.py). */
module VideoAgent {
  import opened Values
  import opened BaseAgent
  import A2AProtocol

  const Name := "VideoAgent"
  const Description := "用于识别和分析视频内容的Agent"
  const AgentId := "video_agent"

  const Info := Init(Name, Description, Some(AgentId))

  const Required: seq<string> := ["video_url"]

  /** `get_capabilities`: one capability whose input schema lists the keys `execute` requires. */
  function Capabilities(): (caps: seq<A2AProtocol.Capability>)
    ensures |caps| == 1 && caps[0].name == "analyze_video" && caps[0].estimatedDuration == 15
    ensures "required" in caps[0].inputSchema && caps[0].inputSchema["required"] == StrList(Required)
  {
    [A2AProtocol.Capability(
      "analyze_video",
      "分析旅游视频内容",
      map["type" := Str("object"),
          "properties" := Obj(map["video_url" := Obj(map["type" := Str("string")])]),
          "required" := List([Str("video_url")])],
      map["type" := Str("object")],
      15)]
  }

  /** `execute`: the prompt shows every value with `str()`, which cannot fail. */
  function Execute(input: Dict, gen: Generator): (c: Call)
    ensures !ValidateInput(input, Required) ==> c == Reject(Required)
    ensures ValidateInput(input, Required) ==>
      |c.prompts| == 1 && c.prompts[0].agent == Info.name &&
      (gen(c.prompts[0]).Failed? ==> c.outcome == Raised(gen(c.prompts[0]).fault))
    // the prompt also sees video_summary (default "") and video_frames (default [])
    ensures ValidateInput(input, Required) ==>
      var fields := c.prompts[0].fields;
      fields.Keys == {"video_url", "video_summary", "video_frames"} &&
      fields["video_url"] == input["video_url"] &&
      fields["video_summary"] == GetOr(input, "video_summary", Str("")) &&
      fields["video_frames"] == GetOr(input, "video_frames", List([]))
    ensures ValidateInput(input, Required) && gen(c.prompts[0]).Generated? ==>
      var data := DataOf(c);
      c.outcome == Returned(SuccessResult("视频分析成功", data)) &&
      data.Keys == {"video_url", "analysis_result"} &&
      data["video_url"] == input["video_url"] &&
      data["analysis_result"] == Str(gen(c.prompts[0]).text)
  {
    if !ValidateInput(input, Required) then Reject(Required)
    else
      var fields := map[
        "video_url" := input["video_url"],
        "video_summary" := GetOr(input, "video_summary", Str("")),
        "video_frames" := GetOr(input, "video_frames", List([]))];
      Respond(Prompt(Info.name, fields), gen, "视频分析成功", map["video_url" := input["video_url"]], "analysis_result")
  }
}
