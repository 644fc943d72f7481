/**
 * TranslationService: whether a transcript needs translating, the translation call itself
 * (its exchange an input), and the clean-up of the translated Markdown.
 */
module Translation {
  import opened JavaStrings
  import opened GeminiResponse
  import opened RegexReplace

  /** LANGUAGE_MAP_PROMPT.getOrDefault(code, code): eleven named languages, any other code as itself. */
  function PromptLanguageName(code: string): (r: string)
  {
    match code
    case "en" => "English"
    case "zh" => "中文（简体）"
    case "es" => "Español"
    case "fr" => "Français"
    case "de" => "Deutsch"
    case "it" => "Italiano"
    case "pt" => "Português"
    case "ru" => "Русский"
    case "ja" => "日本語"
    case "ko" => "한국어"
    case "ar" => "العربية"
    case _ => code
  }

  const PROMPT_CODES: set<string> := {"en", "zh", "es", "fr", "de", "it", "pt", "ru", "ja", "ko", "ar"}

  /** A code outside the table names itself; every code in it gets a different, proper name. */
  lemma PromptLanguageNameFallback(code: string)
    ensures code !in PROMPT_CODES ==> PromptLanguageName(code) == code
    ensures code in PROMPT_CODES ==> PromptLanguageName(code) != code
  {
  }

  /** A language code as compared: lower-cased, then stripped. */
  function Normalized(code: string): string {
    Strip(ToLower(code))
  }

  predicate ChineseVariant(code: string) {
    code == "zh" || code == "zh-cn" || code == "zh-hans"
  }

  /**
   * shouldTranslate: both codes must have text, differ once normalised, and not both be one of
   * the simplified-Chinese variants.
   */
  predicate ShouldTranslate(source: Option<string>, target: Option<string>) {
    && HasTextOpt(source)
    && HasTextOpt(target)
    && Normalized(source.value) != Normalized(target.value)
    && !(ChineseVariant(Normalized(source.value)) && ChineseVariant(Normalized(target.value)))
  }

  lemma ShouldTranslateSymmetric(a: Option<string>, b: Option<string>)
    ensures ShouldTranslate(a, b) <==> ShouldTranslate(b, a)
  {
  }

  /** A language is never translated into itself, nor a missing or blank language into anything. */
  lemma ShouldTranslateNeedsTwoLanguages(a: Option<string>, b: Option<string>)
    ensures !ShouldTranslate(a, a)
    ensures !HasTextOpt(a) || !HasTextOpt(b) ==> !ShouldTranslate(a, b) && !ShouldTranslate(b, a)
  {
  }

  /** A code that lower-cases to `lower`, which has no surrounding whitespace, normalises to it. */
  lemma NormalizedTo(code: string, lower: string)
    requires |code| == |lower| && forall i | 0 <= i < |code| :: LowerChar(code[i]) == lower[i]
    requires lower != [] && !IsWhitespace(lower[0]) && !IsWhitespace(lower[|lower| - 1])
    ensures Normalized(code) == lower
  {
    assert ToLower(code) == lower;
    StripUnpadded(lower);
  }

  /** Two codes both normalising to simplified Chinese are one language. */
  lemma BothChineseNotTranslated(a: string, b: string)
    requires ChineseVariant(Normalized(a)) && ChineseVariant(Normalized(b))
    ensures !ShouldTranslate(Some(a), Some(b))
  {
  }

  /** Two codes with text, normalising to different languages not both simplified Chinese, are translated. */
  lemma DistinctLanguagesTranslated(a: string, b: string, na: string, nb: string)
    requires HasText(a) && HasText(b) && Normalized(a) == na && Normalized(b) == nb
    requires na != nb && !(ChineseVariant(na) && ChineseVariant(nb))
    ensures ShouldTranslate(Some(a), Some(b))
  {
  }

  /** The language codes of the example below, each normalised on its own. */
  lemma ZhCode()
    ensures Normalized("zh") == "zh" && HasText("zh")
  {
    NormalizedTo("zh", "zh");
    HasTextAt("zh", 0);
  }

  lemma ZhTwCode()
    ensures Normalized("zh-tw") == "zh-tw" && HasText("zh-tw")
  {
    NormalizedTo("zh-tw", "zh-tw");
    HasTextAt("zh-tw", 0);
  }

  /** Lower-casing neither creates nor removes text. */
  lemma LowerKeepsText(s: string)
    ensures HasText(ToLower(s)) <==> HasText(s)
  {
    if HasText(s) {
      var i :| 0 <= i < |s| && !IsWhitespace(s[i]);
      HasTextAt(ToLower(s), i);
    }
    if HasText(ToLower(s)) {
      var i :| 0 <= i < |s| && !IsWhitespace(ToLower(s)[i]);
      HasTextAt(s, i);
    }
  }

  lemma ToLowerIdempotent(s: string)
    ensures ToLower(ToLower(s)) == ToLower(s)
  {
  }

  /** A leading whitespace character does not change the normalised code. */
  lemma NormalizedIgnoresLeadingBlank(c: char, a: string)
    requires IsWhitespace(c)
    ensures Normalized([c] + a) == Normalized(a)
  {
    var t := ToLower([c] + a);
    assert t[1..] == ToLower(a);
    StripLeadingBlank(t);
  }

  /** A leading whitespace character neither creates nor removes text. */
  lemma LeadingBlankKeepsText(c: char, a: string)
    requires IsWhitespace(c)
    ensures HasText([c] + a) <==> HasText(a)
  {
    if HasText(a) {
      var i :| 0 <= i < |a| && !IsWhitespace(a[i]);
      HasTextAt([c] + a, i + 1);
    }
    if HasText([c] + a) {
      var i :| 0 <= i < |[c] + a| && !IsWhitespace(([c] + a)[i]);
      HasTextAt(a, i - 1);
    }
  }

  /** The code's case and a leading blank do not matter. */
  lemma CaseAndBlanksIgnored(c: char, a: string, b: Option<string>)
    requires IsWhitespace(c)
    ensures ShouldTranslate(Some([c] + a), b) <==> ShouldTranslate(Some(ToLower(a)), b)
  {
    NormalizedIgnoresLeadingBlank(c, a);
    LeadingBlankKeepsText(c, a);
    ToLowerIdempotent(a);
    LowerKeepsText(a);
  }

  /** zh-tw is not one of the simplified-Chinese codes. */
  lemma TraditionalChineseTranslates()
    ensures ShouldTranslate(Some("zh-tw"), Some("zh"))
  {
    ZhTwCode();
    ZhCode();
    ZhTwIsNotSimplified();
    DistinctLanguagesTranslated("zh-tw", "zh", "zh-tw", "zh");
  }

  lemma ZhTwIsNotSimplified()
    ensures "zh-tw" != "zh" && !(ChineseVariant("zh-tw") && ChineseVariant("zh"))
  {
    assert "zh-tw"[3] != "zh-cn"[3];
  }

  /** String.replace("\r\n", "\n"): every CR LF pair, scanned from the left, becomes one LF. */
  function ReplaceCrLf(s: string): (r: string)
    ensures |r| <= |s|
  {
    if |s| >= 2 && s[0] == '\r' && s[1] == '\n' then "\n" + ReplaceCrLf(s[2..])
    else if s == [] then []
    else [s[0]] + ReplaceCrLf(s[1..])
  }

  /** No CR CR LF in the string. */
  predicate NoCrCrLf(s: string) {
    forall i | 0 <= i < |s| - 2 :: !(s[i] == '\r' && s[i + 1] == '\r' && s[i + 2] == '\n')
  }

  /** The replacement removes every CR LF, provided no CR stands right before one. */
  lemma {:induction false} ReplaceCrLfRemovesPairs(s: string)
    requires NoCrCrLf(s)
    ensures NoPair(ReplaceCrLf(s), '\r', '\n')
  {
    if s == [] {
    } else if |s| >= 2 && s[0] == '\r' && s[1] == '\n' {
      ReplaceCrLfRemovesPairs(s[2..]);
      NoPairConcat("\n", ReplaceCrLf(s[2..]), '\r', '\n');
    } else {
      var t := s[1..];
      ReplaceCrLfRemovesPairs(t);
      if s[0] == '\r' && t != [] {
        assert t[0] != '\n';
        if |t| >= 2 && t[0] == '\r' && t[1] == '\n' {
          assert false;
        }
        assert ReplaceCrLf(t)[0] == t[0];
      }
      NoPairConcat([s[0]], ReplaceCrLf(t), '\r', '\n');
    }
  }

  /** A CR right before a CR LF survives: the pair the replacement produces is a fresh CR LF. */
  lemma ReplaceCrLfLeavesCrCrLf()
    ensures ReplaceCrLf("a\r\r\nb") == "a\r\nb"
    ensures !NoPair(ReplaceCrLf("a\r\r\nb"), '\r', '\n')
  {
    assert ReplaceCrLf("\r\nb") == "\n" + ReplaceCrLf("b");
    assert ReplaceCrLf("\r\r\nb") == "\r" + ReplaceCrLf("\r\nb");
    assert ReplaceCrLf("a\r\r\nb") == "a" + ReplaceCrLf("\r\r\nb");
    assert ReplaceCrLf("a\r\r\nb")[1] == '\r' && ReplaceCrLf("a\r\r\nb")[2] == '\n';
  }

  /** The replacement drops only CRs: every other character of the input survives. */
  lemma {:induction false} ReplaceCrLfKeeps(s: string, x: char)
    requires x in s && x != '\r'
    ensures x in ReplaceCrLf(s)
  {
    if |s| >= 2 && s[0] == '\r' && s[1] == '\n' {
      if x == '\n' {
        assert ReplaceCrLf(s)[0] == '\n';
      } else {
        assert x in s[2..];
        ReplaceCrLfKeeps(s[2..], x);
      }
    } else if s[0] != x {
      assert x in s[1..];
      ReplaceCrLfKeeps(s[1..], x);
    }
  }

  /** Capping LF runs keeps every character other than LF. */
  lemma {:induction false} CapRunsKeeps(s: string, c: char, k: nat, run: nat, x: char)
    requires x in s && x != c
    ensures x in CapRunsFrom(s, c, k, run)
  {
    if s[0] != x {
      assert x in s[1..];
      if s[0] == c && run < k {
        CapRunsKeeps(s[1..], c, k, run + 1, x);
      } else if s[0] == c {
        CapRunsKeeps(s[1..], c, k, run, x);
      } else {
        CapRunsKeeps(s[1..], c, k, 0, x);
      }
    }
  }

  /** ensureMarkdownParagraphs: blank text becomes empty; otherwise CR LF to LF, at most two LFs in a row, stripped. */
  function MarkdownParagraphs(text: string): string {
    if !HasText(text) then "" else Strip(CapRuns(ReplaceCrLf(text), '\n', 2))
  }

  /** Capping and stripping keep a character of the input that is not whitespace. */
  lemma ParagraphsKeepText(text: string)
    requires HasText(text)
    ensures HasText(MarkdownParagraphs(text))
  {
    var u := ReplaceCrLf(text);
    var v := CapRuns(u, '\n', 2);
    var p :| 0 <= p < |text| && !IsWhitespace(text[p]);
    var x := text[p];
    ReplaceCrLfKeeps(text, x);
    CapRunsKeeps(u, '\n', 2, 0, x);
    var q :| 0 <= q < |v| && v[q] == x;
    StripKeepsChar(v, q);
    var r := Strip(v);
    var i :| 0 <= i < |r| && r[i] == x;
    assert MarkdownParagraphs(text) == r;
  }

  /** No run of three line feeds survives, and the strip cuts none back in. */
  lemma ParagraphsRunsCapped(text: string)
    requires HasText(text)
    ensures RunsAtMost(MarkdownParagraphs(text), '\n', 2)
  {
    var v := CapRuns(ReplaceCrLf(text), '\n', 2);
    var i, j := StripIsInfix(v);
    CapRunsHasNoLongRun(ReplaceCrLf(text), '\n', 2);
    RunsAtMostInfix(v, i, j, '\n', 2);
  }

  /** Without CR CR LF in the input, no CR LF is left. */
  lemma ParagraphsNoCrLf(text: string)
    requires HasText(text) && NoCrCrLf(text)
    ensures NoPair(MarkdownParagraphs(text), '\r', '\n')
  {
    var u := ReplaceCrLf(text);
    var v := CapRuns(u, '\n', 2);
    var i, j := StripIsInfix(v);
    ReplaceCrLfRemovesPairs(text);
    CapRunsKeepsNoPair(u, '\n', 2, 0, '\r');
    NoPairInfix(v, i, j, '\r', '\n');
  }

  /**
   * The result never starts or ends with whitespace, never holds three line feeds in a row,
   * has text exactly when the input does, and holds no CR LF when the input has no CR CR LF.
   */
  lemma MarkdownParagraphsShape(text: string)
    ensures var r := MarkdownParagraphs(text);
            && (r != [] ==> !IsWhitespace(r[0]) && !IsWhitespace(r[|r| - 1]))
            && RunsAtMost(r, '\n', 2)
            && (HasText(r) <==> HasText(text))
            && (NoCrCrLf(text) ==> NoPair(r, '\r', '\n'))
  {
    var r := MarkdownParagraphs(text);
    if HasText(text) {
      assert r == Strip(CapRuns(ReplaceCrLf(text), '\n', 2));
      ParagraphsKeepText(text);
      ParagraphsRunsCapped(text);
      if NoCrCrLf(text) {
        ParagraphsNoCrLf(text);
      }
    } else {
      assert r == "";
    }
  }

  /**
   * The translated text of a readable reply; None when the call threw, the body was null (parsing
   * it throws), or the path was unreadable.
   */
  function TranslatedText(ex: Exchange): (r: Option<string>)
    ensures r.Some? <==> ex.Reply? && ex.body.Some? && ex.parsed.Object? && CandidateText(ex.parsed.fields).Success?
    ensures r.Some? ==> r.value == CandidateText(ex.parsed.fields).value
  {
    if ex.Reply? && ex.body.Some? && ex.parsed.Object? && CandidateText(ex.parsed.fields).Success? then
      Some(CandidateText(ex.parsed.fields).value)
    else None
  }

  /**
   * translateText: the text comes back unchanged without a client, for blank text, when no
   * translation is needed, and whenever the call or the reading of the reply throws; otherwise
   * the cleaned-up translation.
   */
  function TranslateText(available: bool, text: string, target: Option<string>, source: Option<string>,
                         ex: Exchange): (r: string)
    ensures !available || !HasText(text) || !ShouldTranslate(source, target) ==> r == text
    ensures available && HasText(text) && ShouldTranslate(source, target) ==>
              r == if TranslatedText(ex).Some? then MarkdownParagraphs(TranslatedText(ex).value) else text
  {
    if !available || !HasText(text) || !ShouldTranslate(source, target) then text
    else match TranslatedText(ex)
      case Some(t) => MarkdownParagraphs(t)
      case None => text
  }

  /** Whatever happens, the result is the input or a stripped text with no blank line doubled. */
  lemma TranslateTextIsInputOrClean(available: bool, text: string, target: Option<string>, source: Option<string>,
                                    ex: Exchange)
    ensures var r := TranslateText(available, text, target, source, ex);
            r == text || (RunsAtMost(r, '\n', 2) && (r != [] ==> !IsWhitespace(r[0]) && !IsWhitespace(r[|r| - 1])))
  {
    if available && HasText(text) && ShouldTranslate(source, target) && TranslatedText(ex).Some? {
      MarkdownParagraphsShape(TranslatedText(ex).value);
    }
  }

  /** A readable reply with the translation t: the result is t cleaned up. */
  lemma TranslateTextOfReply(text: string, target: string, source: string, body: string, t: string)
    requires HasText(text) && ShouldTranslate(Some(source), Some(target))
    ensures TranslateText(true, text, Some(target), Some(source), Reply(Some(body), Object(TextReply(t)), None))
            == MarkdownParagraphs(t)
  {
    CandidateTextOfTextReply(t);
  }
}
