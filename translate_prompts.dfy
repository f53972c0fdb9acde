/** The prompt builders of packages/backend/app/prompts/translate_prompts.py:
    the translation prompt with its language-name table, optional context
    section and terminology note, and the whole-document variant with its
    smaller table. */
module TranslatePrompts {
  import opened Text

  /** The language names `build_translate_prompt` knows. */
  const LanguageNames: map<string, string> := map[
    "zh-CN" := "中文", "zh" := "中文", "en-US" := "英文", "en" := "英文",
    "ja" := "日文", "ko" := "韩文", "fr" := "法文", "de" := "德文",
    "es" := "西班牙文", "ru" := "俄文", "auto" := "自动检测"]

  /** The smaller table of `build_full_document_translate_prompt`. */
  const FullDocumentLanguageNames: map<string, string> := map[
    "zh-CN" := "中文", "zh" := "中文", "en-US" := "英文", "en" := "英文",
    "ja" := "日文", "ko" := "韩文"]

  /** `names.get(code, code)`: the display name of a known code, and an
      unknown code unchanged. */
  function DisplayName(names: map<string, string>, code: string): (r: string)
    ensures code in names ==> r == names[code]
    ensures code !in names ==> r == code
  {
    if code in names then names[code] else code
  }

  /** Neither table maps a code to itself, so a name equals its code
      exactly when the code is unknown. */
  lemma DisplayNamePassesThroughExactlyUnknown(code: string)
    ensures DisplayName(LanguageNames, code) == code <==> code !in LanguageNames
    ensures DisplayName(FullDocumentLanguageNames, code) == code <==> code !in FullDocumentLanguageNames
  {
    if code in LanguageNames {
      assert |code| <= 5 && LanguageNames[code] != code by {
        assert code in {"zh-CN", "zh", "en-US", "en", "ja", "ko", "fr", "de", "es", "ru", "auto"};
      }
    }
  }

  /** The two tables agree on the six codes the smaller one knows; French,
      German, Spanish, Russian and "auto" are named only by the larger one. */
  lemma TablesAgree(code: string)
    ensures code in FullDocumentLanguageNames ==>
      code in LanguageNames && DisplayName(FullDocumentLanguageNames, code) == DisplayName(LanguageNames, code)
    ensures code in {"fr", "de", "es", "ru", "auto"} ==>
      DisplayName(FullDocumentLanguageNames, code) == code && DisplayName(LanguageNames, code) != code
  {
    DisplayNamePassesThroughExactlyUnknown(code);
  }
  const ContextHead := "\n上下文信息："
  const ContextEnd := "\n"
  /** The context section: nothing for an empty context, otherwise the
      context on its own line after a label. */
  function ContextSection(context: string): (r: string)
    ensures r == "" <==> context == ""
    ensures context != "" ==>
      |r| == |ContextHead| + |context| + 1 && OccursAt(ContextHead, r, 0)
      && OccursAt(context, r, |ContextHead|) && r[|r| - 1] == '\n'
  {
    if context == "" then ""
    else
      Format1(ContextHead, context, ContextEnd)
  }

  const PreserveTerms := "保持技术术语不变"
  const LocaliseTerms := "可以适当本地化专业术语"

  /** The second translation requirement, chosen by `preserve_terminology` alone. */
  function TerminologyNote(preserveTerminology: bool): (r: string)
    ensures r == PreserveTerms <==> preserveTerminology
    ensures r == LocaliseTerms <==> !preserveTerminology
  {
    if preserveTerminology then PreserveTerms else LocaliseTerms
  }

  /** The fixed text of `build_translate_prompt`, around its seven values. */
  datatype TranslateWording = TranslateWording(
    intro: string, into: string, headEnd: string, original: string,
    rules: string, moreRules: string, codeSeparator: string, tail: string)
  const TranslateIntro := "请将以下技术文档从"
  const TranslateTo := "翻译为"
  const TranslateHeadEnd := "。\n"
  const TranslateOriginal := "\n原文：\n"
  const TranslateRules := "\n\n翻译要求：\n1. 保持技术文档的专业性和准确性\n2. "
  const TranslateRulesTailPart1 := "\n3. 确保翻译自然流畅\n4. 保持原文的格式和结构\n5. 适应目标语言的表达习惯\n"
  const TranslateRulesTailPart2 := "6. 特别注意openEuler术语的正确使用\n\n请按照以下JSON格式返回翻译结果：\n\n{\n"
  const TranslateRulesTailPart3 := "  \"translatedText\": \"翻译后的完整文本\",\n  \"sourceLanguage\": \""
  const TranslateRulesTail := TranslateRulesTailPart1 + TranslateRulesTailPart2 + TranslateRulesTailPart3
  const TranslateSourceToTarget := "\",\n  \"targetLanguage\": \""
  const TranslateTailPart1 := "\",\n  \"terminology\": [\n    {\n      \"original\": \"原术语\",\n"
  const TranslateTailPart2 := "      \"translated\": \"翻译后术语\",\n      \"note\": \"翻译说明\"\n    }\n  ]\n"
  const TranslateTailPart3 := "}\n\n只返回JSON格式，不要包含其他文字。"
  const TranslateTail := TranslateTailPart1 + TranslateTailPart2 + TranslateTailPart3
  const TranslateText := TranslateWording(TranslateIntro, TranslateTo, TranslateHeadEnd, TranslateOriginal,
    TranslateRules, TranslateRulesTail, TranslateSourceToTarget, TranslateTail)

  /** The translation prompt's f-string: the header names both languages,
      the context section and the text follow, the terminology note is the
      second requirement, and the JSON template repeats both codes. */
  function TranslatePrompt(w: TranslateWording, sourceName: string, targetName: string, contextSection: string,
                           text: string, note: string, sourceCode: string, targetCode: string): (r: string)
    ensures var contextAt := |w.intro| + |sourceName| + |w.into| + |targetName| + |w.headEnd|;
      var textAt := contextAt + |contextSection| + |w.original|;
      var noteAt := textAt + |text| + |w.rules|;
      var sourceAt := noteAt + |note| + |w.moreRules|;
      var targetAt := sourceAt + |sourceCode| + |w.codeSeparator|;
      && |r| == targetAt + |targetCode| + |w.tail|
      && OccursAt(w.intro, r, 0)
      && OccursAt(sourceName, r, |w.intro|)
      && OccursAt(targetName, r, |w.intro| + |sourceName| + |w.into|)
      && OccursAt(contextSection, r, contextAt)
      && OccursAt(text, r, textAt)
      && OccursAt(note, r, noteAt)
      && OccursAt(sourceCode, r, sourceAt)
      && OccursAt(targetCode, r, targetAt)
      && r[targetAt + |targetCode|..] == w.tail
  {
    Format7(w.intro, sourceName, w.into, targetName, w.headEnd, contextSection, w.original, text,
            w.rules, note, w.moreRules, sourceCode, w.codeSeparator, targetCode, w.tail)
  }

  /** Every value the translation prompt interpolates can be found in it. */
  lemma TranslatePromptMentions(w: TranslateWording, sourceName: string, targetName: string, contextSection: string,
                                text: string, note: string, sourceCode: string, targetCode: string)
    ensures var r := TranslatePrompt(w, sourceName, targetName, contextSection, text, note, sourceCode, targetCode);
      && IsInfix(sourceName, r) && IsInfix(targetName, r) && IsInfix(contextSection, r) && IsInfix(text, r)
      && IsInfix(note, r) && IsInfix(sourceCode, r) && IsInfix(targetCode, r)
  {
  }

  /** `build_translate_prompt(text, source_language, target_language,
      preserve_terminology, context)`: both display names, a non-empty
      context, the text, the terminology note and both raw codes all reach
      the prompt. */
  function BuildTranslatePrompt(text: string, sourceLanguage: string, targetLanguage: string,
                                preserveTerminology: bool, context: string): (r: string)
    ensures IsInfix(DisplayName(LanguageNames, sourceLanguage), r)
    ensures IsInfix(DisplayName(LanguageNames, targetLanguage), r)
    ensures context != "" ==> IsInfix(context, r)
    ensures IsInfix(text, r)
    ensures IsInfix(TerminologyNote(preserveTerminology), r)
    ensures IsInfix(sourceLanguage, r) && IsInfix(targetLanguage, r)
  {
    var section := ContextSection(context);
    var sourceName, targetName := DisplayName(LanguageNames, sourceLanguage), DisplayName(LanguageNames, targetLanguage);
    var note := TerminologyNote(preserveTerminology);
    var r := TranslatePrompt(TranslateText, sourceName, targetName, section, text, note, sourceLanguage, targetLanguage);
    TranslatePromptMentions(TranslateText, sourceName, targetName, section, text, note, sourceLanguage, targetLanguage);
    assert context != "" ==> IsInfix(context, r) by {
      if context != "" {
        assert OccursAt(context, section, |ContextHead|);
        InfixTransitive(context, section, r);
      }
    }
    r
  }

  /** Whether terminology is preserved is always visible in the prompt:
      for any wording, two prompts that differ only in the note differ. */
  lemma TerminologyNoteVisible(w: TranslateWording, sourceName: string, targetName: string, contextSection: string,
                               text: string, sourceCode: string, targetCode: string)
    ensures TranslatePrompt(w, sourceName, targetName, contextSection, text, PreserveTerms, sourceCode, targetCode)
      != TranslatePrompt(w, sourceName, targetName, contextSection, text, LocaliseTerms, sourceCode, targetCode)
  {
    var r1 := TranslatePrompt(w, sourceName, targetName, contextSection, text, PreserveTerms, sourceCode, targetCode);
    var r2 := TranslatePrompt(w, sourceName, targetName, contextSection, text, LocaliseTerms, sourceCode, targetCode);
    var noteAt := |w.intro| + |sourceName| + |w.into| + |targetName| + |w.headEnd|
      + |contextSection| + |w.original| + |text| + |w.rules|;
    assert r1[noteAt] == PreserveTerms[0] by {
      assert r1[noteAt..noteAt + |PreserveTerms|] == PreserveTerms;
    }
    assert r2[noteAt] == LocaliseTerms[0] by {
      assert r2[noteAt..noteAt + |LocaliseTerms|] == LocaliseTerms;
    }
  }

  /** For any wording and the same other values, the prompt determines the text. */
  lemma TranslatePromptDeterminesText(w: TranslateWording, sourceName: string, targetName: string,
                                      contextSection: string, text1: string, text2: string, note: string,
                                      sourceCode: string, targetCode: string)
    ensures TranslatePrompt(w, sourceName, targetName, contextSection, text1, note, sourceCode, targetCode)
      == TranslatePrompt(w, sourceName, targetName, contextSection, text2, note, sourceCode, targetCode)
      ==> text1 == text2
  {
    var r1 := TranslatePrompt(w, sourceName, targetName, contextSection, text1, note, sourceCode, targetCode);
    var textAt := |w.intro| + |sourceName| + |w.into| + |targetName| + |w.headEnd| + |contextSection| + |w.original|;
    if r1 == TranslatePrompt(w, sourceName, targetName, contextSection, text2, note, sourceCode, targetCode) {
      assert text1 == r1[textAt..textAt + |text1|];
    }
  }

  /** The fixed text of `build_full_document_translate_prompt`. */
  datatype FullDocumentWording = FullDocumentWording(
    intro: string, original: string, rules: string, readers: string, tail: string)
  const FullIntro := "请将以下完整的技术文档翻译为"
  const FullOriginal := "：\n\n原文档：\n"
  const FullRulesPart1 := "\n\n翻译要求：\n1. 完整翻译所有内容\n2. 保持文档结构和格式\n3. 确保技术术语准确\n4. 保持专业性和可读性\n"
  const FullRulesPart2 := "5. 适合"
  const FullRules := FullRulesPart1 + FullRulesPart2
  const FullReadersPart1 := "读者阅读\n6. 保持openEuler等专有名词不变\n\n请按照以下JSON格式返回翻译结果：\n\n{\n"
  const FullReadersPart2 := "  \"translatedDocument\": \"翻译后的完整文档\",\n  \"targetLanguage\": \""
  const FullReaders := FullReadersPart1 + FullReadersPart2
  const FullTail := "\",\n  \"summary\": \"翻译摘要说明\"\n}\n\n只返回JSON格式，不要包含其他文字。"
  const FullDocumentText := FullDocumentWording(FullIntro, FullOriginal, FullRules, FullReaders, FullTail)

  /** The whole-document prompt's f-string: the target's name in the header
      and again in the fifth requirement, the document, and the raw code in
      the JSON template. */
  function FullDocumentPrompt(w: FullDocumentWording, name: string, text: string, code: string): (r: string)
    ensures var textAt := |w.intro| + |name| + |w.original|;
      var readersAt := textAt + |text| + |w.rules|;
      var codeAt := readersAt + |name| + |w.readers|;
      && |r| == codeAt + |code| + |w.tail|
      && OccursAt(w.intro, r, 0)
      && OccursAt(name, r, |w.intro|)
      && OccursAt(text, r, textAt)
      && OccursAt(name, r, readersAt)
      && OccursAt(code, r, codeAt)
      && r[codeAt + |code|..] == w.tail
  {
    Format4(w.intro, name, w.original, text, w.rules, name, w.readers, code, w.tail)
  }

  /** `build_full_document_translate_prompt(text, target_language)`: the
      target's display name from the smaller table, the document and the
      raw code all reach the prompt. */
  function BuildFullDocumentTranslatePrompt(text: string, targetLanguage: string): (r: string)
    ensures IsInfix(DisplayName(FullDocumentLanguageNames, targetLanguage), r)
    ensures IsInfix(text, r)
    ensures IsInfix(targetLanguage, r)
  {
    FullDocumentPrompt(FullDocumentText, DisplayName(FullDocumentLanguageNames, targetLanguage), text, targetLanguage)
  }

  /** For any wording and the same target, the whole-document prompt determines the document. */
  lemma FullDocumentPromptDeterminesText(w: FullDocumentWording, name: string, text1: string, text2: string, code: string)
    ensures FullDocumentPrompt(w, name, text1, code) == FullDocumentPrompt(w, name, text2, code) ==> text1 == text2
  {
    var r1 := FullDocumentPrompt(w, name, text1, code);
    var textAt := |w.intro| + |name| + |w.original|;
    if r1 == FullDocumentPrompt(w, name, text2, code) {
      assert text1 == r1[textAt..textAt + |text1|];
    }
  }
}
