/** The prompt builders of packages/backend/app/prompts/rewrite_prompts.py:
    the instruction-driven rewrite prompt with its optional terminology
    note, and the style rewrite prompt. */
module RewritePrompts {
  import opened Text

  const PreserveTermsNote := "\n\n特别注意：请保持技术术语的准确性，不要随意更改专业术语。"

  /** The note appended to the fifth requirement: present exactly when
      terminology is to be preserved. */
  function TerminologyNote(preserveTerminology: bool): (r: string)
    ensures preserveTerminology ==> r == PreserveTermsNote
    ensures !preserveTerminology ==> r == ""
  {
    if preserveTerminology then PreserveTermsNote else ""
  }

  /** The fixed text of `build_rewrite_prompt`, around note, text and instruction. */
  datatype RewriteWording = RewriteWording(rules: string, original: string, instruction: string, tail: string)
  const RewriteRulesPart1 := "你是一个专业的文档改写助手。你的任务是根据用户的指令对文本进行改写。\n\n改写要求：\n1. 保持原文的核心意思和重要信息\n"
  const RewriteRulesPart2 := "2. 根据用户的具体指令进行调整\n3. 确保改写后的文本流畅、准确、易读\n"
  const RewriteRulesPart3 := "4. 如果用户没有特殊要求，保持原文的格式和结构\n5. 对于技术文档，保持专业术语的准确性"
  const RewriteRules := RewriteRulesPart1 + RewriteRulesPart2 + RewriteRulesPart3
  const RewriteOriginal := "\n\n当前需要改写的原文：\n"
  const RewriteInstruction := "\n\n用户指令："
  const RewriteTailPart1 := "\n\n请按照以下JSON格式返回改写结果：\n\n{\n  \"rewrittenText\": \"改写后的完整文本\",\n"
  const RewriteTailPart2 := "  \"changes\": [\n    {\n"
  const RewriteTailPart3 := "      \"type\": \"content|structure|style|tone\",\n"
  const RewriteTailPart4 := "      \"description\": \"修改说明\",\n      \"originalText\": \"原文片段\",\n"
  const RewriteTailPart5 := "      \"rewrittenText\": \"改写后片段\",\n      \"reason\": \"改写原因\"\n"
  const RewriteTailPart6 := "    }\n  ],\n  \"summary\": \"改写总结说明\"\n}\n\n只返回JSON格式，不要包含其他文字。"
  const RewriteTail := RewriteTailPart1 + RewriteTailPart2 + RewriteTailPart3 + RewriteTailPart4 + RewriteTailPart5 + RewriteTailPart6
  const RewriteText := RewriteWording(RewriteRules, RewriteOriginal, RewriteInstruction, RewriteTail)

  /** The rewrite prompt's f-string: the note closes the fixed rules, then
      the original text and the user's instruction follow, each at its place. */
  function RewritePrompt(w: RewriteWording, note: string, originalText: string, instruction: string): (r: string)
    ensures var textAt := |w.rules| + |note| + |w.original|;
      var instructionAt := textAt + |originalText| + |w.instruction|;
      && |r| == instructionAt + |instruction| + |w.tail|
      && OccursAt(w.rules, r, 0)
      && OccursAt(note, r, |w.rules|)
      && OccursAt(originalText, r, textAt)
      && OccursAt(instruction, r, instructionAt)
      && r[instructionAt + |instruction|..] == w.tail
  {
    Format3(w.rules, note, w.original, originalText, w.instruction, instruction, w.tail)
  }

  /** `build_rewrite_prompt(original_text, user_instruction, preserve_terminology)`:
      the original text and the instruction reach the prompt, and so does
      the terminology note when it is asked for. */
  function BuildRewritePrompt(originalText: string, userInstruction: string, preserveTerminology: bool): (r: string)
    ensures IsInfix(originalText, r)
    ensures IsInfix(userInstruction, r)
    ensures preserveTerminology ==> IsInfix(PreserveTermsNote, r)
  {
    RewritePrompt(RewriteText, TerminologyNote(preserveTerminology), originalText, userInstruction)
  }

  /** Asking to preserve terminology always changes the prompt: the note
      makes it longer by exactly its own length. */
  lemma TerminologyNoteVisible(originalText: string, userInstruction: string)
    ensures |BuildRewritePrompt(originalText, userInstruction, true)|
      == |BuildRewritePrompt(originalText, userInstruction, false)| + |PreserveTermsNote|
    ensures BuildRewritePrompt(originalText, userInstruction, true)
      != BuildRewritePrompt(originalText, userInstruction, false)
  {
  }

  /** For any wording and the same note, the prompt determines the original
      text once the instruction is fixed, and the instruction once the text is. */
  lemma RewritePromptDeterminesInputs(w: RewriteWording, note: string, text1: string, text2: string,
                                      instruction1: string, instruction2: string)
    ensures RewritePrompt(w, note, text1, instruction1) == RewritePrompt(w, note, text2, instruction1) ==> text1 == text2
    ensures RewritePrompt(w, note, text1, instruction1) == RewritePrompt(w, note, text1, instruction2) ==>
      instruction1 == instruction2
  {
    var r1 := RewritePrompt(w, note, text1, instruction1);
    var textAt := |w.rules| + |note| + |w.original|;
    if r1 == RewritePrompt(w, note, text2, instruction1) {
      assert text1 == r1[textAt..textAt + |text1|];
    }
    var instructionAt := textAt + |text1| + |w.instruction|;
    if r1 == RewritePrompt(w, note, text1, instruction2) {
      assert instruction1 == r1[instructionAt..instructionAt + |instruction1|];
    }
  }

  // The fixed text of `build_style_rewrite_prompt`, around text and requirements.
  const StyleHead := "请根据以下要求改写文本：\n\n原文：\n"
  const StyleRequirements := "\n\n改写要求："
  const StyleTailPart1 := "\n\n请按照以下JSON格式返回改写结果：\n\n{\n  \"rewrittenText\": \"改写后的完整文本\",\n"
  const StyleTailPart2 := "  \"styleChanges\": [\n    {\n      \"aspect\": \"改写方面\",\n"
  const StyleTailPart3 := "      \"description\": \"具体改动说明\",\n      \"before\": \"改写前\",\n"
  const StyleTailPart4 := "      \"after\": \"改写后\"\n    }\n  ]\n}\n\n只返回JSON格式，不要包含其他文字。"
  const StyleTail := StyleTailPart1 + StyleTailPart2 + StyleTailPart3 + StyleTailPart4
  /** `build_style_rewrite_prompt(text, requirements)`: the text, then the
      requirements, between fixed request and fixed answer format. */
  function BuildStyleRewritePrompt(text: string, requirements: string): (r: string)
    ensures |r| == |StyleHead| + |text| + |StyleRequirements| + |requirements| + |StyleTail|
    ensures OccursAt(StyleHead, r, 0)
    ensures OccursAt(text, r, |StyleHead|)
    ensures OccursAt(requirements, r, |StyleHead| + |text| + |StyleRequirements|)
    ensures r[|StyleHead| + |text| + |StyleRequirements| + |requirements|..] == StyleTail
  {
    Format2(StyleHead, text, StyleRequirements, requirements, StyleTail)
  }

  /** For the same requirements, the style prompt determines the text. */
  lemma StylePromptDeterminesText(text1: string, text2: string, requirements: string)
    ensures BuildStyleRewritePrompt(text1, requirements) == BuildStyleRewritePrompt(text2, requirements) ==>
      text1 == text2
  {
    var r1 := BuildStyleRewritePrompt(text1, requirements);
    if r1 == BuildStyleRewritePrompt(text2, requirements) {
      assert text1 == r1[|StyleHead|..|StyleHead| + |text1|];
    }
  }
}
