/** The prompt builders of packages/backend/app/prompts/check_prompts.py:
    the general check prompt and the terminology check prompt. Each is the
    f-string of the source, written as fixed text around the values it
    interpolates. The shape of the general prompt is stated for any
    wording, and the builder fills in the source's own wording. */
module CheckPrompts {
  import opened Text

  /** The fixed text of `build_check_prompt`, around strictness, list and text. */
  datatype CheckWording = CheckWording(intro: string, level: string, bodyHead: string, tail: string)
  const CheckIntro := "请对以下技术文档进行"
  const CheckLevel := "级别的"
  const CheckBodyHead := "检查。\n\n文档内容：\n"
  const CheckTailPart1 := "\n\n检查要求：\n1. 语法和拼写错误\n2. 术语使用规范（特别是openEuler相关术语）\n3. 表达清晰度和准确性\n"
  const CheckTailPart2 := "4. 内容逻辑一致性\n5. 技术描述的准确性\n\n请严格按照以下JSON格式返回检查结果，不要包含任何其他文字：\n\n{\n"
  const CheckTailPart3 := "  \"correctedText\": \"修正后的完整文本\",\n  \"issues\": [\n    {\n"
  const CheckTailPart4 := "      \"type\": \"grammar|terminology|style|consistency\",\n"
  const CheckTailPart5 := "      \"severity\": \"error|warning|info\",\n"
  const CheckTailPart6 := "      \"message\": \"问题描述\",\n      \"suggestion\": \"修改建议\",\n"
  const CheckTailPart7 := "      \"start\": 起始位置,\n      \"end\": 结束位置,\n"
  const CheckTailPart8 := "      \"originalText\": \"原文本片段\",\n"
  const CheckTailPart9 := "      \"suggestedText\": \"建议文本片段\",\n      \"confidence\": 0.95\n"
  const CheckTailPart10 := "    }\n  ]\n}\n\n注意：\n1. 只返回JSON格式，不要包含其他文字\n"
  const CheckTailPart11 := "2. correctedText字段必须包含修正后的完整文本\n3. 位置索引从0开始\n4. 置信度范围0.0-1.0\n"
  const CheckTailPart12 := "5. 如果没有发现问题，issues数组为空，但correctedText仍需提供"
  const CheckTail := CheckTailPart1 + CheckTailPart2 + CheckTailPart3 + CheckTailPart4 + CheckTailPart5 + CheckTailPart6 + CheckTailPart7 + CheckTailPart8 + CheckTailPart9 + CheckTailPart10 + CheckTailPart11 + CheckTailPart12
  const CheckText := CheckWording(CheckIntro, CheckLevel, CheckBodyHead, CheckTail)

  const JoinSeparator := "、"
  const Comprehensive := "全面"
  const Strict := "严格"
  const Standard := "标准"

  /** The categories the prompt names: the check types joined with "、",
      or "全面" when there are none. */
  function CheckList(checkTypes: seq<string>): (r: string)
    ensures checkTypes == [] ==> r == Comprehensive
    ensures checkTypes != [] ==> r == Join(checkTypes, JoinSeparator)
    ensures |checkTypes| == 1 ==> r == checkTypes[0]
    ensures |checkTypes| == 2 ==> r == checkTypes[0] + JoinSeparator + checkTypes[1]
    ensures forall k :: 0 <= k < |checkTypes| ==> IsInfix(checkTypes[k], r)
  {
    JoinMentionsEach(checkTypes, JoinSeparator);
    if checkTypes != [] then Join(checkTypes, JoinSeparator) else Comprehensive
  }

  /** The strictness word: "严格" in strict mode, "标准" otherwise. */
  function Strictness(strictMode: bool): (r: string)
    ensures |r| == 2
    ensures r == Strict <==> strictMode
    ensures r == Standard <==> !strictMode
  {
    if strictMode then Strict else Standard
  }

  /** The check prompt's f-string: the strictness word, then the category
      list, then the document, each at its place in the fixed text. */
  function CheckPrompt(w: CheckWording, strictness: string, list: string, text: string): (r: string)
    ensures var listAt := |w.intro| + |strictness| + |w.level|;
      var textAt := listAt + |list| + |w.bodyHead|;
      && |r| == textAt + |text| + |w.tail|
      && OccursAt(w.intro, r, 0)
      && OccursAt(strictness, r, |w.intro|)
      && OccursAt(list, r, listAt)
      && OccursAt(text, r, textAt)
      && r[textAt + |text|..] == w.tail
  {
    Format3(w.intro, strictness, w.level, list, w.bodyHead, text, w.tail)
  }

  /** `build_check_prompt(text, check_types, strict_mode)`: the prompt
      names the strictness, every check type and the whole document. */
  function BuildCheckPrompt(text: string, checkTypes: seq<string>, strictMode: bool): (r: string)
    ensures IsInfix(Strictness(strictMode), r)
    ensures forall k :: 0 <= k < |checkTypes| ==> IsInfix(checkTypes[k], r)
    ensures IsInfix(text, r)
  {
    var list := CheckList(checkTypes);
    var r := CheckPrompt(CheckText, Strictness(strictMode), list, text);
    assert IsInfix(list, r) by {
      assert OccursAt(list, r, |CheckText.intro| + 2 + |CheckText.level|);
    }
    forall k | 0 <= k < |checkTypes|
      ensures IsInfix(checkTypes[k], r)
    {
      InfixTransitive(checkTypes[k], list, r);
    }
    r
  }

  /** Strict and standard prompts never coincide, whatever they check. */
  lemma StrictnessVisible(text1: string, types1: seq<string>, text2: string, types2: seq<string>)
    ensures BuildCheckPrompt(text1, types1, true) != BuildCheckPrompt(text2, types2, false)
  {
    var r1, r2 := BuildCheckPrompt(text1, types1, true), BuildCheckPrompt(text2, types2, false);
    var at := |CheckText.intro|;
    assert r1[at..at + 2] == Strict;
    assert r2[at..at + 2] == Standard;
  }

  /** For any wording and the same strictness and categories, the prompt
      determines the document. */
  lemma CheckPromptDeterminesText(w: CheckWording, strictness: string, list: string, text1: string, text2: string)
    ensures CheckPrompt(w, strictness, list, text1) == CheckPrompt(w, strictness, list, text2) ==> text1 == text2
  {
    var r1 := CheckPrompt(w, strictness, list, text1);
    var textAt := |w.intro| + |strictness| + |w.level| + |list| + |w.bodyHead|;
    if r1 == CheckPrompt(w, strictness, list, text2) {
      assert text1 == r1[textAt..textAt + |text1|];
    }
  }

  // The fixed text of `build_terminology_check_prompt`, around the text.
  const TerminologyHead := "请检查以下文本中的术语使用是否规范，特别关注openEuler相关术语：\n\n文本：\n"
  const TerminologyTailPart1 := "\n\n检查重点：\n"
  const TerminologyTailPart2 := "1. openEuler术语的正确拼写和大小写（应为\"openEuler\"而不是\"OpenEuler\"或\"Open Eu"
  const TerminologyTailPart3 := "ler\"）\n2. 技术术语的一致性\n3. 专业术语的准确性\n\n请按照以下JSON格式返回检查结果：\n\n{\n"
  const TerminologyTailPart4 := "  \"correctedText\": \"修正后的完整文本\",\n  \"issues\": [\n    {\n"
  const TerminologyTailPart5 := "      \"type\": \"terminology\",\n"
  const TerminologyTailPart6 := "      \"severity\": \"error|warning|info\",\n"
  const TerminologyTailPart7 := "      \"message\": \"术语问题描述\",\n      \"suggestion\": \"正确的术语用法\",\n"
  const TerminologyTailPart8 := "      \"start\": 起始位置,\n      \"end\": 结束位置,\n"
  const TerminologyTailPart9 := "      \"originalText\": \"错误的术语\",\n"
  const TerminologyTailPart10 := "      \"suggestedText\": \"正确的术语\",\n      \"confidence\": 0.95\n"
  const TerminologyTailPart11 := "    }\n  ]\n}\n\n只返回JSON格式，不要包含其他文字。"
  const TerminologyTail := TerminologyTailPart1 + TerminologyTailPart2 + TerminologyTailPart3 + TerminologyTailPart4 + TerminologyTailPart5 + TerminologyTailPart6 + TerminologyTailPart7 + TerminologyTailPart8 + TerminologyTailPart9 + TerminologyTailPart10 + TerminologyTailPart11
  /** `build_terminology_check_prompt(text)`: the text verbatim between
      the fixed request and the fixed answer format. */
  function BuildTerminologyCheckPrompt(text: string): (r: string)
    ensures |r| == |TerminologyHead| + |text| + |TerminologyTail|
    ensures OccursAt(TerminologyHead, r, 0)
    ensures OccursAt(text, r, |TerminologyHead|)
    ensures r[|TerminologyHead| + |text|..] == TerminologyTail
  {
    Format1(TerminologyHead, text, TerminologyTail)
  }

  /** Different texts give different terminology prompts. */
  lemma TerminologyPromptInjective(text1: string, text2: string)
    ensures BuildTerminologyCheckPrompt(text1) == BuildTerminologyCheckPrompt(text2) ==> text1 == text2
  {
    var r1 := BuildTerminologyCheckPrompt(text1);
    if r1 == BuildTerminologyCheckPrompt(text2) {
      assert text1 == r1[|TerminologyHead|..|TerminologyHead| + |text1|];
    }
  }
}
