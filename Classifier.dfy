/** The chat panel's reply selector (`generateBotResponse`): the input is
    lower-cased, then five keyword groups are tried in a fixed priority
    order, and the first group with a keyword inside the input decides the
    reply; when none has, a fallback reply is given. */
module Classifier {
  import opened Text

  // ------------------------------------------------------------- replies

  const UserReply: string :=
    "Based on the latest data, we have 2,100 total users with a 16.7% growth rate this month. The user acquisition trend shows consistent growth, particularly in the AI models category."
  const RevenueReply: string :=
    "Current revenue stands at $75,000 with a 10.2% increase from last month. The revenue growth is primarily driven by increased engagement in our AI processing services."
  const EngagementReply: string :=
    "User engagement is at an impressive 95% with a 3.2% improvement. This high engagement rate indicates strong user satisfaction with our EOS platform features."
  const AiReply: string :=
    "Our AI models are performing exceptionally well with 98.5% accuracy, up 1.8% from last period. The Evolution of Smooth Intelligence continues to improve through continuous learning."
  const TrendReply: string :=
    "Current trends show positive momentum across all metrics. Based on the data patterns, we can expect continued growth in user adoption and revenue generation over the next quarter."
  const FallbackReply: string :=
    "I can help you analyze various aspects of your EOS platform including user metrics, revenue trends, engagement rates, and AI model performance. What specific area would you like to explore?"

  /** The six replies the selector can give. */
  const AllReplies: set<string> :=
    {UserReply, RevenueReply, EngagementReply, AiReply, TrendReply, FallbackReply}

  /** The six replies are six different strings. */
  lemma RepliesDistinct()
    ensures |AllReplies| == 6
    ensures UserReply != RevenueReply && UserReply != EngagementReply && UserReply != AiReply
    ensures UserReply != TrendReply && UserReply != FallbackReply
    ensures RevenueReply != EngagementReply && RevenueReply != AiReply
    ensures RevenueReply != TrendReply && RevenueReply != FallbackReply
    ensures EngagementReply != AiReply && EngagementReply != TrendReply && EngagementReply != FallbackReply
    ensures AiReply != TrendReply && AiReply != FallbackReply
    ensures TrendReply != FallbackReply
  {
  }

  // ------------------------------------------------------ keyword groups

  /** One keyword group: its trigger substrings and the reply it gives. */
  datatype Rule = Rule(triggers: seq<string>, reply: string)

  /** The keyword groups, highest priority first. */
  const Rules: seq<Rule> := [
    Rule(["user", "growth"], UserReply),
    Rule(["revenue", "money", "sales"], RevenueReply),
    Rule(["engagement", "activity"], EngagementReply),
    Rule(["ai", "accuracy", "model"], AiReply),
    Rule(["trend", "forecast", "prediction"], TrendReply)
  ]

  /** Some trigger of the list is included in `input` (an `||` chain of
      `includes` tests). */
  predicate AnyIncluded(input: string, triggers: seq<string>) {
    triggers != [] && (Includes(input, triggers[0]) || AnyIncluded(input, triggers[1..]))
  }

  /** The reply of the first rule with a trigger in `input`, or `fallback`. */
  function FirstMatch(rules: seq<Rule>, input: string, fallback: string): string {
    if rules == [] then fallback
    else if AnyIncluded(input, rules[0].triggers) then rules[0].reply
    else FirstMatch(rules[1..], input, fallback)
  }

  /** `generateBotResponse`: the first-match scan over the lower-cased input. */
  function GenerateBotResponse(userInput: string): (r: string)
    ensures r in AllReplies
  {
    FirstMatchFromRules(Rules, ToLower(userInput), FallbackReply);
    FirstMatch(Rules, ToLower(userInput), FallbackReply)
  }

  // ------------------------------------------------ the first-match scan

  /** The scan answers with the fallback or with the reply of one of the
      rules. */
  lemma {:induction false} FirstMatchFromRules(rules: seq<Rule>, input: string, fallback: string)
    ensures FirstMatch(rules, input, fallback) == fallback
         || exists k :: 0 <= k < |rules| && FirstMatch(rules, input, fallback) == rules[k].reply
  {
    if rules != [] && !AnyIncluded(input, rules[0].triggers) {
      FirstMatchFromRules(rules[1..], input, fallback);
      if FirstMatch(rules, input, fallback) != fallback {
        var k :| 0 <= k < |rules| - 1 && FirstMatch(rules, input, fallback) == rules[1..][k].reply;
        assert rules[1..][k] == rules[k + 1];
      }
    }
  }

  /** The scan is short-circuiting: it gives the reply of the first rule
      that fires, whatever later rules would say, and the fallback when no
      rule fires. */
  lemma {:induction false} FirstMatchIsFirstFiring(rules: seq<Rule>, input: string, fallback: string, k: int)
    requires 0 <= k <= |rules|
    requires forall j :: 0 <= j < k ==> !AnyIncluded(input, rules[j].triggers)
    requires k < |rules| ==> AnyIncluded(input, rules[k].triggers)
    ensures FirstMatch(rules, input, fallback) == if k < |rules| then rules[k].reply else fallback
  {
    if k > 0 {
      assert !AnyIncluded(input, rules[0].triggers);
      FirstMatchIsFirstFiring(rules[1..], input, fallback, k - 1);
    }
  }

  // ------------------------------------------- the if/else chain, as written

  predicate MentionsUsers(input: string) {
    Includes(input, "user") || Includes(input, "growth")
  }
  predicate MentionsRevenue(input: string) {
    Includes(input, "revenue") || Includes(input, "money") || Includes(input, "sales")
  }
  predicate MentionsEngagement(input: string) {
    Includes(input, "engagement") || Includes(input, "activity")
  }
  predicate MentionsAi(input: string) {
    Includes(input, "ai") || Includes(input, "accuracy") || Includes(input, "model")
  }
  predicate MentionsTrends(input: string) {
    Includes(input, "trend") || Includes(input, "forecast") || Includes(input, "prediction")
  }

  /** The selector exactly as the source spells it: one `if`/`else if`
      chain over the lower-cased input. */
  function ChainResponse(userInput: string): string {
    var input := ToLower(userInput);
    if MentionsUsers(input) then UserReply
    else if MentionsRevenue(input) then RevenueReply
    else if MentionsEngagement(input) then EngagementReply
    else if MentionsAi(input) then AiReply
    else if MentionsTrends(input) then TrendReply
    else FallbackReply
  }

  /** Each rule of the table fires exactly when its group's test in the
      chain succeeds. */
  lemma RulesMatchGroups(input: string)
    ensures |Rules| == 5
    ensures AnyIncluded(input, Rules[0].triggers) <==> MentionsUsers(input)
    ensures AnyIncluded(input, Rules[1].triggers) <==> MentionsRevenue(input)
    ensures AnyIncluded(input, Rules[2].triggers) <==> MentionsEngagement(input)
    ensures AnyIncluded(input, Rules[3].triggers) <==> MentionsAi(input)
    ensures AnyIncluded(input, Rules[4].triggers) <==> MentionsTrends(input)
  {
    AnyIncludedPair(input, "user", "growth");
    AnyIncludedTriple(input, "revenue", "money", "sales");
    AnyIncludedPair(input, "engagement", "activity");
    AnyIncludedTriple(input, "ai", "accuracy", "model");
    AnyIncludedTriple(input, "trend", "forecast", "prediction");
  }

  lemma AnyIncludedPair(input: string, a: string, b: string)
    ensures AnyIncluded(input, [a, b]) <==> Includes(input, a) || Includes(input, b)
  {
    assert [a, b][1..] == [b];
    assert [b][1..] == [];
    assert !AnyIncluded(input, []);
    assert AnyIncluded(input, [b]) <==> Includes(input, b);
  }

  lemma AnyIncludedTriple(input: string, a: string, b: string, c: string)
    ensures AnyIncluded(input, [a, b, c]) <==> Includes(input, a) || Includes(input, b) || Includes(input, c)
  {
    assert [a, b, c][1..] == [b, c];
    AnyIncludedPair(input, b, c);
  }

  /** The data-driven scan and the source's `if`/`else` chain agree on
      every input. */
  lemma ScanEqualsChain(userInput: string)
    ensures GenerateBotResponse(userInput) == ChainResponse(userInput)
  {
    var input := ToLower(userInput);
    RulesMatchGroups(input);
    var k := if MentionsUsers(input) then 0
             else if MentionsRevenue(input) then 1
             else if MentionsEngagement(input) then 2
             else if MentionsAi(input) then 3
             else if MentionsTrends(input) then 4
             else 5;
    FirstMatchIsFirstFiring(Rules, input, FallbackReply, k);
  }

  // --------------------------------------------------- what the reply says

  /** A user or growth keyword decides the reply whatever else is there. */
  lemma UserReplyIff(userInput: string)
    ensures GenerateBotResponse(userInput) == UserReply <==> MentionsUsers(ToLower(userInput))
  {
    ScanEqualsChain(userInput);
    RepliesDistinct();
  }

  /** The revenue reply comes exactly when a revenue keyword is present and
      no user or growth keyword is. */
  lemma RevenueReplyIff(userInput: string)
    ensures var input := ToLower(userInput);
      GenerateBotResponse(userInput) == RevenueReply
      <==> !MentionsUsers(input) && MentionsRevenue(input)
  {
    ScanEqualsChain(userInput);
    RepliesDistinct();
  }

  /** The engagement reply comes exactly when an engagement keyword is
      present and no keyword of a higher group is. */
  lemma EngagementReplyIff(userInput: string)
    ensures var input := ToLower(userInput);
      GenerateBotResponse(userInput) == EngagementReply
      <==> !MentionsUsers(input) && !MentionsRevenue(input) && MentionsEngagement(input)
  {
    ScanEqualsChain(userInput);
    RepliesDistinct();
  }

  /** The AI reply comes exactly when an AI keyword is present and no
      keyword of a higher group is. */
  lemma AiReplyIff(userInput: string)
    ensures var input := ToLower(userInput);
      GenerateBotResponse(userInput) == AiReply
      <==> !MentionsUsers(input) && !MentionsRevenue(input) && !MentionsEngagement(input)
           && MentionsAi(input)
  {
    ScanEqualsChain(userInput);
    RepliesDistinct();
  }

  /** The trend reply comes exactly when a trend keyword is present and no
      keyword of a higher group is. */
  lemma TrendReplyIff(userInput: string)
    ensures var input := ToLower(userInput);
      GenerateBotResponse(userInput) == TrendReply
      <==> !MentionsUsers(input) && !MentionsRevenue(input) && !MentionsEngagement(input)
           && !MentionsAi(input) && MentionsTrends(input)
  {
    ScanEqualsChain(userInput);
    RepliesDistinct();
  }

  /** The fallback comes exactly when none of the thirteen keywords is in
      the lower-cased input. */
  lemma FallbackReplyIff(userInput: string)
    ensures var input := ToLower(userInput);
      GenerateBotResponse(userInput) == FallbackReply
      <==> !MentionsUsers(input) && !MentionsRevenue(input) && !MentionsEngagement(input)
           && !MentionsAi(input) && !MentionsTrends(input)
  {
    ScanEqualsChain(userInput);
    RepliesDistinct();
  }

  /** Only the lower-cased input is inspected, so an input and its
      lower-case form get the same reply. */
  lemma CaseInsensitive(userInput: string)
    ensures GenerateBotResponse(ToLower(userInput)) == GenerateBotResponse(userInput)
  {
    ToLowerIdempotent(userInput);
  }

  /** Matching is by substring, not by word: "ai" inside any word selects
      the AI reply unless a keyword of a higher group is present. */
  lemma AiInsideAnyWord(pre: string, post: string)
    requires var input := ToLower(pre + "ai" + post);
      !MentionsUsers(input) && !MentionsRevenue(input) && !MentionsEngagement(input)
    ensures GenerateBotResponse(pre + "ai" + post) == AiReply
  {
    ToLowerAppend(pre + "ai", post);
    ToLowerAppend(pre, "ai");
    assert ToLower("ai") == "ai";
    IncludesInside(ToLower(pre), "ai", ToLower(post));
    AiReplyIff(pre + "ai" + post);
  }

  // -------------------------------------------------------------- examples

  /** A keyword whose letter is missing from `s` is not included in `s`. */
  lemma NotIncludedWithoutLetter(s: string, sub: string, c: char)
    requires c in sub && c !in s
    ensures !Includes(s, sub)
  {
  }

  /** "user revenue" mentions two groups; the higher one, users, wins. */
  lemma UserRevenueExample(input: string)
    requires input == "user revenue"
    ensures GenerateBotResponse(input) == UserReply
  {
  }

  /** "said" holds "ai" inside a word and no other keyword: the AI reply. */
  lemma SaidExample(input: string)
    requires input == "said"
    ensures GenerateBotResponse(input) == AiReply
  {
    assert ToLower(input) == input;
    NotIncludedWithoutLetter(input, "user", 'u');
    NotIncludedWithoutLetter(input, "growth", 'g');
    NotIncludedWithoutLetter(input, "revenue", 'r');
    NotIncludedWithoutLetter(input, "money", 'm');
    NotIncludedWithoutLetter(input, "sales", 'l');
    NotIncludedWithoutLetter(input, "engagement", 'e');
    NotIncludedWithoutLetter(input, "activity", 'c');
    assert input == "s" + "ai" + "d";
    AiInsideAnyWord("s", "d");
  }

  /** A string without capitals is its own lower-case form. */
  lemma AlreadyLower(s: string)
    requires forall i :: 0 <= i < |s| ==> !IsUpper(s[i])
    ensures ToLower(s) == s
  {
  }

  /** "hello" holds none of the thirteen keywords. */
  lemma HelloHasNoKeyword(input: string)
    requires input == "hello"
    ensures !MentionsUsers(input) && !MentionsRevenue(input) && !MentionsEngagement(input)
    ensures !MentionsAi(input) && !MentionsTrends(input)
  {
    assert !MentionsUsers(input) by {
      NotIncludedWithoutLetter(input, "user", 'u');
      NotIncludedWithoutLetter(input, "growth", 'g');
    }
    assert !MentionsRevenue(input) by {
      NotIncludedWithoutLetter(input, "revenue", 'v');
      NotIncludedWithoutLetter(input, "money", 'm');
      NotIncludedWithoutLetter(input, "sales", 's');
    }
    assert !MentionsEngagement(input) by {
      NotIncludedWithoutLetter(input, "engagement", 'g');
      NotIncludedWithoutLetter(input, "activity", 'a');
    }
    assert !MentionsAi(input) by {
      NotIncludedWithoutLetter(input, "ai", 'a');
      NotIncludedWithoutLetter(input, "accuracy", 'a');
      NotIncludedWithoutLetter(input, "model", 'm');
    }
    assert !MentionsTrends(input) by {
      NotIncludedWithoutLetter(input, "trend", 'd');
      NotIncludedWithoutLetter(input, "forecast", 'f');
      NotIncludedWithoutLetter(input, "prediction", 'p');
    }
  }

  /** "hello" holds no keyword: the fallback reply. */
  lemma HelloExample(input: string)
    requires input == "hello"
    ensures GenerateBotResponse(input) == FallbackReply
  {
    AlreadyLower(input);
    HelloHasNoKeyword(input);
    FallbackReplyIff(input);
  }

  /** "revenue" mentions revenue and no user or growth keyword. */
  lemma RevenueExample(input: string)
    requires input == "revenue"
    ensures GenerateBotResponse(input) == RevenueReply
  {
    AlreadyLower(input);
    assert !MentionsUsers(input) by {
      NotIncludedWithoutLetter(input, "user", 's');
      NotIncludedWithoutLetter(input, "growth", 'g');
    }
    assert MentionsRevenue(input) by {
      assert input == "" + "revenue" + "";
      IncludesInside("", "revenue", "");
    }
    RevenueReplyIff(input);
  }

  /** "REVENUE" gets the same reply as "revenue": the revenue reply. */
  lemma RevenueCaseExample(upper: string, lower: string)
    requires upper == "REVENUE" && lower == "revenue"
    ensures GenerateBotResponse(upper) == GenerateBotResponse(lower) == RevenueReply
  {
    assert ToLower(upper) == lower;
    CaseInsensitive(upper);
    RevenueExample(lower);
  }
}
