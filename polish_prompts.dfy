/** The prompt builders of packages/backend/app/prompts/polish_prompts.py:
    the general polish prompt with its focus and audience tables, and the
    clarity prompt. */
module PolishPrompts {
  import opened Text

  /** What each `focus_on` value asks the model to improve. */
  const FocusDescriptions: map<string, string> := map[
    "clarity" := "提高表达的清晰度和准确性",
    "conciseness" := "使表达更加简洁明了",
    "tone" := "调整语调和表达方式",
    "structure" := "优化文档结构和逻辑",
    "all" := "全面提升文档质量"]

  /** Who each `target_audience` value names as the reader. */
  const AudienceDescriptions: map<string, string> := map[
    "technical" := "技术人员",
    "general" := "一般用户",
    "beginner" := "初学者",
    "expert" := "专家用户"]

  const DefaultFocusDescription := "全面提升文档质量"
  const DefaultAudienceDescription := "技术人员"

  /** `focus_descriptions.get(focus_on, ...)`: an unknown focus is treated as "all". */
  function FocusDescription(focusOn: string): (r: string)
    ensures focusOn in FocusDescriptions ==> r == FocusDescriptions[focusOn]
    ensures focusOn !in FocusDescriptions ==> r == FocusDescriptions["all"]
  {
    if focusOn in FocusDescriptions then FocusDescriptions[focusOn] else DefaultFocusDescription
  }

  /** `audience_descriptions.get(target_audience, ...)`: an unknown audience
      is treated as "technical". */
  function AudienceDescription(targetAudience: string): (r: string)
    ensures targetAudience in AudienceDescriptions ==> r == AudienceDescriptions[targetAudience]
    ensures targetAudience !in AudienceDescriptions ==> r == AudienceDescriptions["technical"]
  {
    if targetAudience in AudienceDescriptions then AudienceDescriptions[targetAudience] else DefaultAudienceDescription
  }

  /** The fixed text of `build_polish_prompt`, around focus, audience and text. */
  datatype PolishWording = PolishWording(intro: string, audience: string, bodyHead: string, tail: string)
  const PolishIntro := "请对以下技术文档进行全面润色，重点"
  const PolishAudience := "，目标读者是"
  const PolishBodyHead := "。\n\n注意：请保持技术术语的准确性，不要随意更改专业术语。\n\n原文：\n"
  const PolishTailPart1 := "\n\n润色要求：\n1. 提高表达的清晰度和准确性\n2. 优化文档结构和逻辑\n3. 确保技术描述准确无误\n"
  const PolishTailPart2 := "4. 保持专业的技术写作风格\n5. 提升可读性和用户体验\n6. 保持原文的核心意思和重要信息\n\n"
  const PolishTailPart3 := "请按照以下JSON格式返回润色结果：\n\n{\n  \"polishedText\": \"润色后的完整文本\",\n"
  const PolishTailPart4 := "  \"changes\": [\n    {\n"
  const PolishTailPart5 := "      \"type\": \"clarity|conciseness|tone|structure|grammar\",\n"
  const PolishTailPart6 := "      \"description\": \"修改说明\",\n      \"originalText\": \"原文片段\",\n"
  const PolishTailPart7 := "      \"polishedText\": \"润色后片段\",\n      \"reason\": \"修改原因\"\n    }\n"
  const PolishTailPart8 := "  ]\n}\n\n只返回JSON格式，不要包含其他文字。"
  const PolishTail := PolishTailPart1 + PolishTailPart2 + PolishTailPart3 + PolishTailPart4 + PolishTailPart5 + PolishTailPart6 + PolishTailPart7 + PolishTailPart8
  const PolishText := PolishWording(PolishIntro, PolishAudience, PolishBodyHead, PolishTail)

  /** The polish prompt's f-string: the focus, then the audience, then the
      document, each at its place in the fixed text. */
  function PolishPrompt(w: PolishWording, focus: string, audience: string, text: string): (r: string)
    ensures var audienceAt := |w.intro| + |focus| + |w.audience|;
      var textAt := audienceAt + |audience| + |w.bodyHead|;
      && |r| == textAt + |text| + |w.tail|
      && OccursAt(w.intro, r, 0)
      && OccursAt(focus, r, |w.intro|)
      && OccursAt(audience, r, audienceAt)
      && OccursAt(text, r, textAt)
      && r[textAt + |text|..] == w.tail
  {
    Format3(w.intro, focus, w.audience, audience, w.bodyHead, text, w.tail)
  }

  /** `build_polish_prompt(text, focus_on, target_audience)`: the focus and
      audience descriptions and the document all reach the prompt. */
  function BuildPolishPrompt(text: string, focusOn: string, targetAudience: string): (r: string)
    ensures IsInfix(FocusDescription(focusOn), r)
    ensures IsInfix(AudienceDescription(targetAudience), r)
    ensures IsInfix(text, r)
  {
    PolishPrompt(PolishText, FocusDescription(focusOn), AudienceDescription(targetAudience), text)
  }

  /** An unknown focus or audience gives the same prompt as "all" and "technical". */
  lemma UnknownOptionsFallBack(text: string, focusOn: string, targetAudience: string)
    ensures focusOn !in FocusDescriptions ==>
      BuildPolishPrompt(text, focusOn, targetAudience) == BuildPolishPrompt(text, "all", targetAudience)
    ensures targetAudience !in AudienceDescriptions ==>
      BuildPolishPrompt(text, focusOn, targetAudience) == BuildPolishPrompt(text, focusOn, "technical")
  {
  }

  /** For any wording, the same focus and audience, the prompt determines the document. */
  lemma PolishPromptDeterminesText(w: PolishWording, focus: string, audience: string, text1: string, text2: string)
    ensures PolishPrompt(w, focus, audience, text1) == PolishPrompt(w, focus, audience, text2) ==> text1 == text2
  {
    var r1 := PolishPrompt(w, focus, audience, text1);
    var textAt := |w.intro| + |focus| + |w.audience| + |audience| + |w.bodyHead|;
    if r1 == PolishPrompt(w, focus, audience, text2) {
      assert text1 == r1[textAt..textAt + |text1|];
    }
  }

  // The fixed text of `build_clarity_polish_prompt`, around the text.
  const ClarityHead := "请重点提高以下技术文档的清晰度：\n\n原文：\n"
  const ClarityTailPart1 := "\n\n要求：\n1. 简化复杂的表达\n2. 明确模糊的描述\n3. 优化句子结构\n4. 保持技术准确性\n\n"
  const ClarityTailPart2 := "请按照以下JSON格式返回润色结果：\n\n{\n  \"polishedText\": \"润色后的完整文本\",\n"
  const ClarityTailPart3 := "  \"improvements\": [\n    {\n      \"type\": \"clarity\",\n"
  const ClarityTailPart4 := "      \"description\": \"清晰度改进说明\",\n      \"before\": \"原始表达\",\n"
  const ClarityTailPart5 := "      \"after\": \"改进后表达\"\n    }\n  ]\n}\n\n只返回JSON格式，不要包含其他文字。"
  const ClarityTail := ClarityTailPart1 + ClarityTailPart2 + ClarityTailPart3 + ClarityTailPart4 + ClarityTailPart5
  /** `build_clarity_polish_prompt(text)`: the text verbatim between the
      fixed request and the fixed answer format. */
  function BuildClarityPolishPrompt(text: string): (r: string)
    ensures |r| == |ClarityHead| + |text| + |ClarityTail|
    ensures OccursAt(ClarityHead, r, 0)
    ensures OccursAt(text, r, |ClarityHead|)
    ensures r[|ClarityHead| + |text|..] == ClarityTail
  {
    Format1(ClarityHead, text, ClarityTail)
  }

  /** Different texts give different clarity prompts. */
  lemma ClarityPromptInjective(text1: string, text2: string)
    ensures BuildClarityPolishPrompt(text1) == BuildClarityPolishPrompt(text2) ==> text1 == text2
  {
    var r1 := BuildClarityPolishPrompt(text1);
    if r1 == BuildClarityPolishPrompt(text2) {
      assert text1 == r1[|ClarityHead|..|ClarityHead| + |text1|];
    }
  }
}
