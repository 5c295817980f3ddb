/** The AI mentor chat (src/components/AIMentor.tsx): a rule-based reply
    selector over six advice topics in three languages, and the chat
    transcript that each send extends by a user turn and, once the reply
    timer fires, an assistant turn. */
module AIMentor {
  import opened Types

  // ---------------------------------------------------------------------
  // The fixed replies
  // ---------------------------------------------------------------------

  /** The fourteen fixed replies, named by topic and language. */
  datatype Reply =
    | BudgetEs | BudgetEn | SaveEs | SaveEn | CreditHi | CreditEn | InvestEs | InvestEn
    | DebtHi | DebtEn | EmergencyEn | FallbackEs | FallbackHi | FallbackEn
  {
    /** The language the reply is written in. */
    function Language(): string {
      match this
      case BudgetEs | SaveEs | InvestEs | FallbackEs => "es"
      case CreditHi | DebtHi | FallbackHi => "hi"
      case _ => "en"
    }

    /** The literal text of the reply. */
    function Text(): string {
      match this
      case BudgetEs => "Un buen presupuesto sigue la regla 50/30/20: 50% para necesidades, 30% para deseos y 20% para ahorros. Comienza rastreando tus gastos durante un mes para entender tus patrones de gasto."
      case BudgetEn => "A good budget follows the 50/30/20 rule: 50% for needs, 30% for wants, and 20% for savings. Start by tracking your expenses for a month to understand your spending patterns."
      case SaveEs => "Para ahorrar efectivamente: 1) Construye un fondo de emergencia de 3-6 meses de gastos, 2) Automatiza tus ahorros, 3) Establece metas específicas. Incluso ahorrar 50-100 dólares al mes puede crear un hábito poderoso."
      case SaveEn => "To save effectively: 1) Build an emergency fund of 3-6 months expenses, 2) Automate your savings, 3) Set specific goals. Even saving $50-100/month can build a powerful habit."
      case CreditHi => "अपने क्रेडिट स्कोर को सुधारने के लिए: 1) समय पर भुगतान करें, 2) क्रेडिट उपयोग को 30% से कम रखें, 3) पुराने खाते खुले रखें, 4) नए क्रेडिट के लिए बहुत सारे आवेदन से बचें।"
      case CreditEn => "To improve your credit score: 1) Pay bills on time, 2) Keep credit utilization under 30%, 3) Keep old accounts open, 4) Avoid too many applications for new credit."
      case InvestEs => "La inversión comienza con comprender tu tolerancia al riesgo y horizonte temporal. Para principiantes: considera fondos indexados de bajo costo, diversifica entre clases de activos y piensa a largo plazo. Comienza con lo que puedas permitirte, incluso cantidades pequeñas."
      case InvestEn => "Investing starts with understanding your risk tolerance and time horizon. For beginners: consider low-cost index funds, diversify across asset classes, and think long-term. Start with what you can afford, even small amounts."
      case DebtHi => "ऋण प्रबंधन: 1) उच्च-ब्याज ऋण को प्राथमिकता दें, 2) न्यूनतम से अधिक भुगतान करें, 3) ऋण एकीकरण पर विचार करें, 4) और नया ऋण लेने से बचें। एक योजना बनाएं और उस पर टिके रहें।"
      case DebtEn => "Debt management: 1) Prioritize high-interest debt, 2) Pay more than minimums, 3) Consider debt consolidation, 4) Avoid taking on new debt. Make a plan and stick to it."
      case EmergencyEn => "An emergency fund is crucial! Aim for 3-6 months of living expenses. Start small - even $500 can help. Keep it in a high-yield savings account that's easily accessible but separate from daily spending."
      case FallbackEs => "Entiendo tu pregunta. Puedo ayudarte con presupuestos, ahorros, crédito, inversión y planificación financiera. ¿Podrías ser más específico sobre lo que te gustaría aprender?"
      case FallbackHi => "मैं आपका सवाल समझता हूं। मैं बजट, बचत, क्रेडिट, निवेश और वित्तीय योजना में मदद कर सकता हूं। क्या आप बता सकते हैं कि आप क्या सीखना चाहेंगे?"
      case FallbackEn => "I understand your question. I can help with budgeting, savings, credit, investing, and financial planning. Could you be more specific about what you'd like to learn?"
    }
  }

  /** The opening assistant turn of every transcript. */
  const Greeting := "Hello! I'm your AI Financial Mentor. I can help you with budgeting, saving, investing, credit building, and more. What would you like to learn about today?"

  // ---------------------------------------------------------------------
  // Lower-casing and substring search
  // ---------------------------------------------------------------------

  predicate IsAsciiUpper(c: char) { 'A' <= c <= 'Z' }

  function LowerChar(c: char): char {
    if IsAsciiUpper(c) then (c as int + 32) as char else c
  }

  /** `toLowerCase`, on the ASCII letters (see README for why this is enough
      for keyword matching). */
  function ToLower(s: string): (r: string)
    ensures |r| == |s|
    ensures forall i :: 0 <= i < |s| ==> r[i] == LowerChar(s[i])
    ensures forall i :: 0 <= i < |r| ==> !IsAsciiUpper(r[i])
  {
    seq(|s|, i requires 0 <= i < |s| => LowerChar(s[i]))
  }

  /** Lower-casing twice is lower-casing once. */
  lemma ToLowerIdempotent(s: string)
    ensures ToLower(ToLower(s)) == ToLower(s)
  {
    var once := ToLower(s);
    assert forall i :: 0 <= i < |once| ==> LowerChar(once[i]) == once[i];
  }

  /** `w` occurs in `s` starting at index `i`. */
  ghost predicate OccursAt(s: string, w: string, i: int) {
    0 <= i && i + |w| <= |s| && s[i..i + |w|] == w
  }

  lemma OccurrenceShift(s: string, w: string)
    requires |s| > 0
    ensures forall j {:trigger OccursAt(s[1..], w, j)} :: 0 <= j ==> (OccursAt(s[1..], w, j) <==> OccursAt(s, w, j + 1))
  {
    forall j | 0 <= j
      ensures OccursAt(s[1..], w, j) <==> OccursAt(s, w, j + 1)
    {
      if j + 1 + |w| <= |s| {
        assert s[1..][j..j + |w|] == s[j + 1..j + 1 + |w|];
      }
    }
  }

  /** `String.prototype.includes`, scanning start positions left to right. */
  function Includes(s: string, w: string): (found: bool)
    ensures found ==> |w| <= |s|
    ensures w == [] ==> found
    decreases |s|
  {
    if |s| < |w| then false
    else s[..|w|] == w || Includes(s[1..], w)
  }

  /** `Includes` finds `w` exactly when `w` occurs somewhere in `s`. */
  lemma {:induction false} IncludesIffOccurs(s: string, w: string)
    ensures Includes(s, w) <==> exists i :: OccursAt(s, w, i)
    decreases |s|
  {
    if |s| < |w| {
    } else if s[..|w|] == w {
      assert OccursAt(s, w, 0);
    } else {
      IncludesIffOccurs(s[1..], w);
      OccurrenceShift(s, w);
      if Includes(s[1..], w) {
        var j :| OccursAt(s[1..], w, j);
        assert OccursAt(s, w, j + 1);
      }
      if exists i :: OccursAt(s, w, i) {
        var i :| OccursAt(s, w, i);
        assert i != 0;
        assert OccursAt(s[1..], w, i - 1);
      }
    }
  }

  /** The text contains one of two keywords. */
  predicate Mentions(text: string, a: string, b: string) {
    Includes(text, a) || Includes(text, b)
  }

  /** A word with a letter that the text lacks is not a substring of it. */
  lemma MissingLetter(s: string, w: string, c: char)
    requires c in w && c !in s
    ensures !Includes(s, w)
  {
    IncludesIffOccurs(s, w);

  }

  /** A word at a given offset of the text is a substring of it. */
  lemma FoundAt(s: string, w: string, i: nat)
    requires i + |w| <= |s| && s[i..i + |w|] == w
    ensures Includes(s, w)
  {
    assert OccursAt(s, w, i);
    IncludesIffOccurs(s, w);
  }


  // ---------------------------------------------------------------------
  // The selector, as the component writes it
  // ---------------------------------------------------------------------

  /** `getAIResponse`: the topics are tried in order on the lower-cased text
      and the first one with a keyword in it decides; each topic is localised
      into its own subset of languages, and any other language code gets
      English. The reply is always in the requested language or in English. */
  function GetAIResponse(userMessage: string, lang: string): (r: Reply)
    ensures r.Language() == lang || r.Language() == "en"
  {
    var m := ToLower(userMessage);
    if Mentions(m, "budget", "spending") then
      (if lang == "es" then BudgetEs else BudgetEn)
    else if Mentions(m, "save", "saving") then
      (if lang == "es" then SaveEs else SaveEn)
    else if Mentions(m, "credit", "score") then
      (if lang == "hi" then CreditHi else CreditEn)
    else if Mentions(m, "invest", "investment") then
      (if lang == "es" then InvestEs else InvestEn)
    else if Mentions(m, "debt", "loan") then
      (if lang == "hi" then DebtHi else DebtEn)
    else if Mentions(m, "emergency", "fund") then
      EmergencyEn
    else if lang == "es" then FallbackEs
    else if lang == "hi" then FallbackHi
    else FallbackEn
  }

  // ---------------------------------------------------------------------
  // The same selector as data: an ordered rule table and per-topic
  // translation maps that fall back to English
  // ---------------------------------------------------------------------

  datatype Topic = Budgeting | Saving | CreditBuilding | Investing | DebtManagement | EmergencyFund

  datatype Rule = Rule(keywords: seq<string>, topic: Topic)

  const Rules: seq<Rule> := [
    Rule(["budget", "spending"], Budgeting),
    Rule(["save", "saving"], Saving),
    Rule(["credit", "score"], CreditBuilding),
    Rule(["invest", "investment"], Investing),
    Rule(["debt", "loan"], DebtManagement),
    Rule(["emergency", "fund"], EmergencyFund)
  ]

  function AnyKeyword(text: string, keywords: seq<string>): (b: bool)
    ensures b <==> exists k :: 0 <= k < |keywords| && Includes(text, keywords[k])
  {
    if keywords == [] then false
    else Includes(text, keywords[0]) || AnyKeyword(text, keywords[1..])
  }

  /** The index of the first rule with a keyword in `text`, if any. */
  function FirstMatch(rules: seq<Rule>, text: string): (r: Option<nat>)
    ensures r.Some? ==> r.value < |rules| && AnyKeyword(text, rules[r.value].keywords)
    ensures r.Some? ==> forall j :: 0 <= j < r.value ==> !AnyKeyword(text, rules[j].keywords)
    ensures r.None? ==> forall j :: 0 <= j < |rules| ==> !AnyKeyword(text, rules[j].keywords)
  {
    if rules == [] then None
    else if AnyKeyword(text, rules[0].keywords) then Some(0)
    else match FirstMatch(rules[1..], text)
      case None => None
      case Some(k) => Some(k + 1)
  }

  /** The topic the lower-cased text selects, if any. */
  function TopicOf(text: string): Option<Topic> {
    match FirstMatch(Rules, ToLower(text))
    case None => None
    case Some(k) => Some(Rules[k].topic)
  }

  /** Each topic's translations: always an "en" entry, often no others. */
  function Translations(t: Topic): (m: map<string, Reply>)
    ensures "en" in m && m["en"].Language() == "en"
    ensures forall l :: l in m ==> m[l].Language() == l
  {
    match t
    case Budgeting => map["en" := BudgetEn, "es" := BudgetEs]
    case Saving => map["en" := SaveEn, "es" := SaveEs]
    case CreditBuilding => map["en" := CreditEn, "hi" := CreditHi]
    case Investing => map["en" := InvestEn, "es" := InvestEs]
    case DebtManagement => map["en" := DebtEn, "hi" := DebtHi]
    case EmergencyFund => map["en" := EmergencyEn]
  }

  const FallbackTranslations: map<string, Reply> :=
    map["en" := FallbackEn, "es" := FallbackEs, "hi" := FallbackHi]

  /** The entry for `lang`, or the English one when there is none. When
      every entry is in the language it is filed under, the reply is in the
      requested language exactly when the map has that language, and in
      English otherwise. */
  function Localize(m: map<string, Reply>, lang: string): (r: Reply)
    requires "en" in m
    ensures r in m.Values
    ensures (forall l :: l in m ==> m[l].Language() == l) ==>
      (r.Language() == lang <==> lang in m) && (lang !in m ==> r.Language() == "en")
  {
    if lang in m then m[lang] else m["en"]
  }

  /** The reply for a topic (or for no topic) in a language code. */
  function Localized(topic: Option<Topic>, lang: string): Reply {
    match topic
    case Some(t) => Localize(Translations(t), lang)
    case None => Localize(FallbackTranslations, lang)
  }

  /** The selector as a table lookup: the first matching rule's topic,
      localised. */
  function SelectResponse(text: string, lang: string): Reply {
    Localized(TopicOf(text), lang)
  }

  /** Which topics have a Spanish and which a Hindi translation. */
  lemma LocalizedLanguage(topic: Option<Topic>, lang: string)
    ensures Localized(topic, lang).Language() == "es" <==>
      lang == "es" && topic in {Some(Budgeting), Some(Saving), Some(Investing), None}
    ensures Localized(topic, lang).Language() == "hi" <==>
      lang == "hi" && topic in {Some(CreditBuilding), Some(DebtManagement), None}
  {
  }

  lemma AnyOfTwo(text: string, a: string, b: string)
    ensures AnyKeyword(text, [a, b]) == Mentions(text, a, b)
  {
    assert [a, b][1..] == [b];
  }

  /** The rule table names each topic's keywords as the component does. */
  lemma RuleKeywords(text: string)
    ensures AnyKeyword(text, Rules[0].keywords) == (Mentions(text, "budget", "spending"))
    ensures AnyKeyword(text, Rules[1].keywords) == (Mentions(text, "save", "saving"))
    ensures AnyKeyword(text, Rules[2].keywords) == (Mentions(text, "credit", "score"))
    ensures AnyKeyword(text, Rules[3].keywords) == (Mentions(text, "invest", "investment"))
    ensures AnyKeyword(text, Rules[4].keywords) == (Mentions(text, "debt", "loan"))
    ensures AnyKeyword(text, Rules[5].keywords) == (Mentions(text, "emergency", "fund"))
  {
    AnyOfTwo(text, "budget", "spending");
    AnyOfTwo(text, "save", "saving");
    AnyOfTwo(text, "credit", "score");
    AnyOfTwo(text, "invest", "investment");
    AnyOfTwo(text, "debt", "loan");
    AnyOfTwo(text, "emergency", "fund");
  }

  /** The first rule that matches is the one FirstMatch reports. */
  lemma FirstMatchIs(text: string, k: nat)
    requires k < |Rules| && AnyKeyword(text, Rules[k].keywords)
    requires forall j :: 0 <= j < k ==> !AnyKeyword(text, Rules[j].keywords)
    ensures FirstMatch(Rules, text) == Some(k)
  {
  }

  /** The reply of the rule table once the matching rule is known. */
  lemma TableReply(text: string, lang: string, k: nat)
    requires k < |Rules| && AnyKeyword(ToLower(text), Rules[k].keywords)
    requires forall j :: 0 <= j < k ==> !AnyKeyword(ToLower(text), Rules[j].keywords)
    ensures SelectResponse(text, lang) == Localize(Translations(Rules[k].topic), lang)
  {
    FirstMatchIs(ToLower(text), k);
  }

  /** Each topic's translation lookup, written as the conditional the
      component uses for it. */
  lemma TranslationLookup(t: Topic, lang: string)
    ensures Localize(Translations(t), lang) ==
      match t
      case Budgeting => (if lang == "es" then BudgetEs else BudgetEn)
      case Saving => (if lang == "es" then SaveEs else SaveEn)
      case CreditBuilding => (if lang == "hi" then CreditHi else CreditEn)
      case Investing => (if lang == "es" then InvestEs else InvestEn)
      case DebtManagement => (if lang == "hi" then DebtHi else DebtEn)
      case EmergencyFund => EmergencyEn
  {
  }

  /** With one of the first three rules the first to match, the if-chain
      picks that rule's reply. */
  lemma ChainPicksEarlyRule(text: string, lang: string, k: nat)
    requires k < 3 && AnyKeyword(ToLower(text), Rules[k].keywords)
    requires forall j :: 0 <= j < k ==> !AnyKeyword(ToLower(text), Rules[j].keywords)
    ensures GetAIResponse(text, lang) == Localize(Translations(Rules[k].topic), lang)
  {
    var m := ToLower(text);
    RuleKeywords(m);
    TranslationLookup(Rules[k].topic, lang);
    if k == 1 {
      assert !AnyKeyword(m, Rules[0].keywords);
    } else if k == 2 {
      assert !AnyKeyword(m, Rules[0].keywords) && !AnyKeyword(m, Rules[1].keywords);
    }
  }

  /** With the investing or the debt rule the first to match, the if-chain
      picks that rule's reply. */
  lemma ChainPicksMiddleRule(text: string, lang: string, k: nat)
    requires 3 <= k < 5 && AnyKeyword(ToLower(text), Rules[k].keywords)
    requires forall j :: 0 <= j < k ==> !AnyKeyword(ToLower(text), Rules[j].keywords)
    ensures GetAIResponse(text, lang) == Localize(Translations(Rules[k].topic), lang)
  {
    var m := ToLower(text);
    RuleKeywords(m);
    TranslationLookup(Rules[k].topic, lang);
    assert !AnyKeyword(m, Rules[0].keywords) && !AnyKeyword(m, Rules[1].keywords) && !AnyKeyword(m, Rules[2].keywords);
    if k == 4 {
      assert !AnyKeyword(m, Rules[3].keywords);
    }
  }

  /** With the emergency-fund rule the first to match, the if-chain picks its
      reply. */
  lemma ChainPicksLastRule(text: string, lang: string)
    requires AnyKeyword(ToLower(text), Rules[5].keywords)
    requires forall j :: 0 <= j < 5 ==> !AnyKeyword(ToLower(text), Rules[j].keywords)
    ensures GetAIResponse(text, lang) == Localize(Translations(Rules[5].topic), lang)
  {
    var m := ToLower(text);
    RuleKeywords(m);
    TranslationLookup(Rules[5].topic, lang);
    assert !AnyKeyword(m, Rules[0].keywords) && !AnyKeyword(m, Rules[1].keywords) && !AnyKeyword(m, Rules[2].keywords);
    assert !AnyKeyword(m, Rules[3].keywords) && !AnyKeyword(m, Rules[4].keywords);
  }

  /** The if-chain of the component and the rule table agree on every text
      and every language code. */
  lemma {:induction false} SelectorMatchesRuleTable(text: string, lang: string)
    ensures GetAIResponse(text, lang) == SelectResponse(text, lang)
  {
    var m := ToLower(text);
    match FirstMatch(Rules, m)
    case None =>
      RuleKeywords(m);
    case Some(k) =>
      if k < 3 {
        ChainPicksEarlyRule(text, lang, k);
      } else if k < 5 {
        ChainPicksMiddleRule(text, lang, k);
      } else {
        ChainPicksLastRule(text, lang);
      }
  }

  // ---------------------------------------------------------------------
  // Properties of the selector
  // ---------------------------------------------------------------------

  /** Matching ignores letter case: a text and its lower-cased form get the
      same reply. */
  lemma IgnoresCase(text: string, lang: string)
    ensures GetAIResponse(text, lang) == GetAIResponse(ToLower(text), lang)
  {
    ToLowerIdempotent(text);
  }

  /** Topics are tried in a fixed order and the first one with a keyword in
      the text decides the reply; a text that names "budget" gets the
      budgeting reply whatever else it names. */
  lemma FirstTopicWins(text: string, lang: string, k: nat)
    requires k < |Rules| && AnyKeyword(ToLower(text), Rules[k].keywords)
    requires forall j :: 0 <= j < k ==> !AnyKeyword(ToLower(text), Rules[j].keywords)
    ensures GetAIResponse(text, lang) == Localize(Translations(Rules[k].topic), lang)
  {
    SelectorMatchesRuleTable(text, lang);
    TableReply(text, lang, k);
  }

  /** A Spanish reply comes exactly for "es" on the budgeting, saving and
      investing topics and on no match; every other code gets English or
      Hindi. */
  lemma SpanishOnlyForEs(text: string, lang: string)
    ensures GetAIResponse(text, lang).Language() == "es" <==>
      lang == "es" && TopicOf(text) in {Some(Budgeting), Some(Saving), Some(Investing), None}
  {
    SelectorMatchesRuleTable(text, lang);
    LocalizedLanguage(TopicOf(text), lang);
  }

  /** A Hindi reply comes exactly for "hi" on the credit and debt topics and
      on no match. */
  lemma HindiOnlyForHi(text: string, lang: string)
    ensures GetAIResponse(text, lang).Language() == "hi" <==>
      lang == "hi" && TopicOf(text) in {Some(CreditBuilding), Some(DebtManagement), None}
  {
    SelectorMatchesRuleTable(text, lang);
    LocalizedLanguage(TopicOf(text), lang);
  }

  /** Codes other than "es" and "hi" always get English. */
  lemma OtherCodesGetEnglish(text: string, lang: string)
    requires lang != "es" && lang != "hi"
    ensures GetAIResponse(text, lang).Language() == "en"
  {
  }

  /** The emergency-fund reply has no translation: every code gets the same
      English text. */
  lemma EmergencyFundIsEnglishOnly(text: string, lang: string)
    requires TopicOf(text) == Some(EmergencyFund)
    ensures GetAIResponse(text, lang) == EmergencyEn
  {
    SelectorMatchesRuleTable(text, lang);
  }

  /** Without a topic, "es" and "hi" get their own fallback and any other
      code the English one. */
  lemma NoTopicFallback(text: string, lang: string)
    requires TopicOf(text) == None
    ensures GetAIResponse(text, lang) ==
      if lang == "es" then FallbackEs else if lang == "hi" then FallbackHi else FallbackEn
  {
    SelectorMatchesRuleTable(text, lang);
  }

  /** The "investment" keyword never decides anything: every text containing
      it also contains "invest". */
  lemma InvestmentKeywordIsRedundant(s: string)
    requires Includes(s, "investment")
    ensures Includes(s, "invest")
  {
    IncludesIffOccurs(s, "investment");
    var i :| OccursAt(s, "investment", i);
    assert s[i..i + 6] == s[i..i + 10][..6];
    assert OccursAt(s, "invest", i);
    IncludesIffOccurs(s, "invest");
  }

  // ---------------------------------------------------------------------
  // Worked examples
  // ---------------------------------------------------------------------

  /** The letters every keyword of the first five topics, and "emergency"
      too, contains at least one of. */
  predicate KeywordLetter(c: char) {
    c == 'b' || c == 'c' || c == 'l' || c == 's'
  }

  /** A text whose lower-cased letters avoid b, c, l and s can only reach
      the emergency-fund reply, through "fund", or the fallback. */
  lemma WithoutKeywordLetters(text: string, lang: string)
    requires forall i :: 0 <= i < |text| ==> !KeywordLetter(LowerChar(text[i]))
    ensures GetAIResponse(text, lang) ==
      if Includes(ToLower(text), "fund") then EmergencyEn
      else if lang == "es" then FallbackEs else if lang == "hi" then FallbackHi else FallbackEn
  {
    var m := ToLower(text);
    assert 'b' !in m && 'c' !in m && 'l' !in m && 's' !in m;
    MissingLetter(m, "budget", 'b');
    MissingLetter(m, "spending", 's');
    MissingLetter(m, "save", 's');
    MissingLetter(m, "saving", 's');
    MissingLetter(m, "credit", 'c');
    MissingLetter(m, "score", 's');
    MissingLetter(m, "invest", 's');
    MissingLetter(m, "investment", 's');
    MissingLetter(m, "debt", 'b');
    MissingLetter(m, "loan", 'l');
    MissingLetter(m, "emergency", 'c');
  }

  /** Substring matching: "refund" contains "fund" and gets the emergency
      reply, in every language. */
  lemma RefundSelectsEmergency(text: string, lang: string)
    requires text == "refund"
    ensures GetAIResponse(text, lang) == EmergencyEn
  {
    RefundLetters(text);
    WithoutKeywordLetters(text, lang);
  }

  /** What the selector needs to know about "refund". */
  lemma RefundLetters(text: string)
    requires text == "refund"
    ensures forall i :: 0 <= i < |text| ==> !KeywordLetter(LowerChar(text[i]))
    ensures Includes(ToLower(text), "fund")
  {
    assert ToLower(text)[2..6] == "fund";
    FoundAt(ToLower(text), "fund", 2);
  }

  /** A text with no keyword gets the fallback of its language, and any
      code but "es" and "hi" the English one. */
  lemma UnrelatedTextFallsBack(text: string, lang: string)
    requires text == "What now?"
    ensures GetAIResponse(text, lang) ==
      if lang == "es" then FallbackEs else if lang == "hi" then FallbackHi else FallbackEn
  {
    UnrelatedLetters(text);
    WithoutKeywordLetters(text, lang);
  }

  /** What the selector needs to know about "What now?". */
  lemma UnrelatedLetters(text: string)
    requires text == "What now?"
    ensures forall i :: 0 <= i < |text| ==> !KeywordLetter(LowerChar(text[i]))
    ensures !Includes(ToLower(text), "fund")
  {
    assert forall i :: 0 <= i < |text| ==> LowerChar(text[i]) != 'f';
    MissingLetter(ToLower(text), "fund", 'f');
  }

  /** Case is ignored and a longer word still matches: "BUDGETING tips"
      selects budgeting. */
  lemma BudgetingInAnyCase(text: string)
    requires text == "BUDGETING tips"
    ensures GetAIResponse(text, "en") == BudgetEn
  {
    assert ToLower(text)[..6] == "budget";
  }

  /** "save and budget" names two topics; budgeting comes first. */
  lemma BudgetBeatsSave(text: string, lang: string)
    requires text == "save and budget"
    ensures GetAIResponse(text, lang) == if lang == "es" then BudgetEs else BudgetEn
  {
    assert ToLower(text) == text;
    FoundAt(text, "budget", 9);
  }

  /** The budgeting reply is English for "hi". */
  lemma BudgetHasNoHindi(text: string)
    requires text == "budget"
    ensures GetAIResponse(text, "hi") == BudgetEn
  {
    assert ToLower(text) == text;
    FoundAt(text, "budget", 0);
  }

  /** The credit reply is English for "es". */
  lemma CreditHasNoSpanish(text: string)
    requires text == "credit"
    ensures GetAIResponse(text, "es") == CreditEn
  {
    CreditLetters(text);
  }

  /** What the selector needs to know about "credit": it names the credit
      topic and neither of the two before it. */
  lemma CreditLetters(text: string)
    requires text == "credit"
    ensures var m := ToLower(text);
      !Mentions(m, "budget", "spending") && !Mentions(m, "save", "saving") && Includes(m, "credit")
  {
    var m := ToLower(text);
    assert forall i :: 0 <= i < |text| ==> LowerChar(text[i]) != 'b' && LowerChar(text[i]) != 's';
    MissingLetter(m, "budget", 'b');
    MissingLetter(m, "spending", 's');
    MissingLetter(m, "save", 's');
    MissingLetter(m, "saving", 's');
    assert m[0..6] == "credit";
    FoundAt(m, "credit", 0);
  }

  // ---------------------------------------------------------------------
  // Blank input: `String.prototype.trim`
  // ---------------------------------------------------------------------

  /** The ECMAScript WhiteSpace and LineTerminator code points, which `trim`
      removes from both ends. */
  predicate IsJsSpace(c: char) {
    c == '\t' || c == '\n' || c == '\U{000B}' || c == '\U{000C}' || c == '\r' || c == ' '
    || c == '\U{00A0}' || c == '\U{1680}' || ('\U{2000}' <= c <= '\U{200A}')
    || c == '\U{2028}' || c == '\U{2029}' || c == '\U{202F}' || c == '\U{205F}'
    || c == '\U{3000}' || c == '\U{FEFF}'
  }

  predicate IsBlank(s: string) {
    forall i :: 0 <= i < |s| ==> IsJsSpace(s[i])
  }

  /** Drops the leading white space. */
  function TrimStart(s: string): (r: string)
    ensures |r| <= |s| && r == s[|s| - |r|..]
    ensures IsBlank(s[..|s| - |r|])
    ensures r == [] || !IsJsSpace(r[0])
  {
    if |s| > 0 && IsJsSpace(s[0]) then
      var r := TrimStart(s[1..]);
      var n := |s| - |r|;
      assert s[..n] == [s[0]] + s[1..][..n - 1];
      assert s[n..] == s[1..][n - 1..];
      r
    else s
  }

  /** Drops the trailing white space. */
  function TrimEnd(s: string): (r: string)
    ensures |r| <= |s| && r == s[..|r|]
    ensures IsBlank(s[|r|..])
    ensures r == [] || !IsJsSpace(r[|r| - 1])
  {
    if |s| > 0 && IsJsSpace(s[|s| - 1]) then
      var r := TrimEnd(s[..|s| - 1]);
      assert s[|r|..] == s[..|s| - 1][|r|..] + [s[|s| - 1]];
      assert s[..|r|] == s[..|s| - 1][..|r|];
      r
    else s
  }

  /** `trim`: white space removed from both ends. */
  function Trim(s: string): (r: string)
    ensures |r| <= |s|
    ensures r == [] || (!IsJsSpace(r[0]) && !IsJsSpace(r[|r| - 1]))
  {
    TrimEnd(TrimStart(s))
  }

  /** `!input.trim()` holds exactly for the texts made only of white space,
      the empty text among them. */
  lemma TrimEmptyIffBlank(s: string)
    ensures Trim(s) == "" <==> IsBlank(s)
  {
    var t := TrimStart(s);
    if Trim(s) == "" {
      assert t == t[0..];
      assert IsBlank(s[..|s| - |t|]);
      assert s == s[..|s| - |t|] + t;
    }
  }

  // ---------------------------------------------------------------------
  // The transcript
  // ---------------------------------------------------------------------

  datatype Role = User | Assistant

  /** The text of a turn: the opening greeting, typed by the user, or one of
      the fixed replies. */
  datatype Content = Welcome | Typed(text: string) | Canned(reply: Reply)

  /** One chat turn: who wrote it, its content, and the language code it was
      written for. */
  datatype Message = Message(role: Role, content: Content, language: string) {
    /** The string the transcript shows. */
    function Text(): string {
      match content
      case Welcome => Greeting
      case Typed(t) => t
      case Canned(r) => r.Text()
    }
  }

  /** The text the user typed into a turn. User turns always hold typed
      text (the transcript invariant says so); the other contents have none. */
  function TypedText(c: Content): string {
    match c
    case Typed(t) => t
    case _ => ""
  }

  /** A reply whose timer has not fired yet: the text and language code the
      timer's closure captured when the turn was sent. */
  datatype PendingReply = PendingReply(text: string, language: string)

  /** The opening turn of every transcript. */
  const Opening := Message(Assistant, Welcome, "en")

  /** The user turns of a transcript, in order, as the replies they ask for. */
  function UserTurns(ms: seq<Message>): (r: seq<PendingReply>)
    ensures |r| <= |ms|
  {
    if ms == [] then []
    else
      var last := ms[|ms| - 1];
      UserTurns(ms[..|ms| - 1]) + (if last.role == User then [PendingReply(TypedText(last.content), last.language)] else [])
  }

  /** The assistant turns of a transcript, in order. */
  function AssistantTurns(ms: seq<Message>): (r: seq<Message>)
    ensures |r| <= |ms|
    ensures forall k :: 0 <= k < |r| ==> r[k].role == Assistant
  {
    if ms == [] then []
    else
      var last := ms[|ms| - 1];
      AssistantTurns(ms[..|ms| - 1]) + (if last.role == Assistant then [last] else [])
  }

  /** The assistant turn that answers a sent turn. */
  function Answer(p: PendingReply): Message {
    Message(Assistant, Canned(GetAIResponse(p.text, p.language)), p.language)
  }

  /** A transcript that the component can reach, with the replies still
      waiting on their timers: it opens with the greeting, every user turn has
      non-blank text, the k-th reply answers the k-th user turn, and the user
      turns not answered yet are exactly the pending ones, oldest first. */
  ghost predicate Reachable(ms: seq<Message>, pending: seq<PendingReply>) {
    var users := UserTurns(ms);
    var replies := AssistantTurns(ms);
    |ms| > 0 && ms[0] == Opening
    && (forall i :: 0 <= i < |ms| && ms[i].role == User ==> ms[i].content.Typed? && !IsBlank(ms[i].content.text))
    && 1 <= |replies| && |replies| - 1 + |pending| == |users|
    && (forall k :: 1 <= k < |replies| ==> replies[k] == Answer(users[k - 1]))
    && pending == users[|replies| - 1..]
  }

  /** The greeting alone, with nothing pending, is where every chat starts. */
  lemma OpeningIsReachable()
    ensures Reachable([Opening], [])
  {
    assert [Opening][..0] == [];
    assert UserTurns([Opening]) == [];
    assert AssistantTurns([Opening]) == [Opening];
  }

  lemma AppendTurn(ms: seq<Message>, m: Message)
    ensures UserTurns(ms + [m]) == UserTurns(ms) + (if m.role == User then [PendingReply(TypedText(m.content), m.language)] else [])
    ensures AssistantTurns(ms + [m]) == AssistantTurns(ms) + (if m.role == Assistant then [m] else [])
  {
    assert (ms + [m])[..|ms|] == ms;
  }

  /** Every transcript has exactly one turn per sent text and one per
      delivered reply besides the greeting. */
  lemma {:induction false} TurnsPartition(ms: seq<Message>)
    ensures |UserTurns(ms)| + |AssistantTurns(ms)| == |ms|
  {
    if ms != [] {
      TurnsPartition(ms[..|ms| - 1]);
    }
  }

  /** With no reply pending, the transcript is the greeting followed by one
      exchange of two turns per send. */
  lemma SettledTranscriptLength(ms: seq<Message>)
    requires Reachable(ms, [])
    ensures |ms| == 2 * |UserTurns(ms)| + 1
  {
    TurnsPartition(ms);
  }

  /** A send of non-blank text keeps the transcript reachable. */
  lemma SendKeepsReachable(ms: seq<Message>, pending: seq<PendingReply>, text: string, lang: string)
    requires Reachable(ms, pending) && !IsBlank(text)
    ensures Reachable(ms + [Message(User, Typed(text), lang)], pending + [PendingReply(text, lang)])
  {
    AppendTurn(ms, Message(User, Typed(text), lang));
    var replies := AssistantTurns(ms);
    var users := UserTurns(ms);
    assert users[|replies| - 1..] + [PendingReply(text, lang)] == (users + [PendingReply(text, lang)])[|replies| - 1..];
  }

  /** Delivering the oldest pending reply keeps the transcript reachable. */
  lemma ReplyKeepsReachable(ms: seq<Message>, pending: seq<PendingReply>)
    requires Reachable(ms, pending) && pending != []
    ensures Reachable(ms + [Answer(pending[0])], pending[1..])
  {
    AppendTurn(ms, Answer(pending[0]));
    var replies := AssistantTurns(ms);
    var users := UserTurns(ms);
    assert pending[0] == users[|replies| - 1];
    assert pending[1..] == users[|replies|..];
  }

  /** The mentor chat: its transcript, the text box, the language chosen and
      the replies whose timers are running. */
  class Mentor {
    var messages: seq<Message>
    var input: string
    var language: string
    var pending: seq<PendingReply>

    ghost predicate Valid()
      reads this
    {
      Reachable(messages, pending)
    }

    /** The component's initial state: the greeting alone, an empty text
        box, English. */
    constructor ()
      ensures Valid()
      ensures messages == [Opening] && input == "" && language == "en" && pending == []
    {
      messages := [Opening];
      input := "";
      language := "en";
      pending := [];
      OpeningIsReachable();
    }

    /** Typing into the text box. */
    method EditInput(text: string)
      requires Valid()
      modifies this
      ensures Valid()
      ensures input == text
      ensures messages == old(messages) && language == old(language) && pending == old(pending)
    {
      input := text;
    }

    /** One of the language buttons. */
    method ChooseLanguage(code: string)
      requires Valid()
      modifies this
      ensures Valid()
      ensures language == code
      ensures messages == old(messages) && input == old(input) && pending == old(pending)
    {
      language := code;
    }

    /** `handleSend`: white-space-only input changes nothing; any other input
        becomes a user turn tagged with the current language, the text box is
        cleared, and a reply to that text in that language starts waiting. */
    method Send()
      requires Valid()
      modifies this
      ensures Valid()
      ensures IsBlank(old(input)) ==>
        messages == old(messages) && input == old(input) && language == old(language) && pending == old(pending)
      ensures !IsBlank(old(input)) ==>
        messages == old(messages) + [Message(User, Typed(old(input)), old(language))]
        && input == "" && language == old(language)
        && pending == old(pending) + [PendingReply(old(input), old(language))]
    {
      TrimEmptyIffBlank(input);
      if Trim(input) == "" {
        return;
      }
      SendKeepsReachable(messages, pending, input, language);
      messages := messages + [Message(User, Typed(input), language)];
      pending := pending + [PendingReply(input, language)];
      input := "";
    }

    /** The oldest reply timer fires: its answer is appended. */
    method DeliverReply()
      requires Valid() && pending != []
      modifies this
      ensures Valid()
      ensures messages == old(messages) + [Answer(old(pending)[0])]
      ensures pending == old(pending)[1..]
      ensures input == old(input) && language == old(language)
    {
      ReplyKeepsReachable(messages, pending);
      messages := messages + [Answer(pending[0])];
      pending := pending[1..];
    }

    /** A send followed by its reply, with no other reply waiting: the
        transcript grows by the user turn and its answer. */
    method Exchange()
      requires Valid() && pending == [] && !IsBlank(input)
      modifies this
      ensures Valid() && pending == [] && input == "" && language == old(language)
      ensures messages == old(messages) + [
        Message(User, Typed(old(input)), old(language)),
        Message(Assistant, Canned(GetAIResponse(old(input), old(language))), old(language))]
    {
      Send();
      DeliverReply();
    }
  }
}
