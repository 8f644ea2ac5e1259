// The Ski (Tovi) message service: the request text sent for a motivational
// message and for a streak celebration, the validation of the replies, and
// the streak-count override of a celebration. The LLM call is an input: its
// reply, already parsed, or nothing when the call failed or the JSON did not
// parse.
module Tovi {
  import opened Wrappers
  import opened Text
  import SkiPersonality

  /** The Ski message schema's emoji styles. */
  const EMOJI_STYLES: set<string> := {"playful", "celebratory", "encouraging", "wise", "gentle", "calm", "energetic", "supportive"}

  datatype SkiMessage = SkiMessage(message: string, emojiStyle: string, animationSuggestion: string)

  predicate ValidSkiMessage(m: SkiMessage)
  {
    m.message != "" && m.emojiStyle in EMOJI_STYLES && m.animationSuggestion != ""
  }

  datatype StreakCelebration = StreakCelebration(streakCount: int, celebrationMessage: string, specialAnimation: string,
                                                 rewardSuggestion: Option<string>)

  predicate ValidCelebration(c: StreakCelebration)
  {
    c.streakCount > 0 && c.celebrationMessage != "" && c.specialAnimation != ""
  }

  /** The celebration request: user, streak and the milestone text. */
  method CelebrationRequest(userName: string, streakDays: int) returns (prompt: string)
    ensures Contains(prompt, "User: " + userName + "\n")
    ensures Contains(prompt, "Streak: " + IntToString(streakDays) + " days\n")
    ensures Contains(prompt, "Milestone context: " + SkiPersonality.MilestoneText(streakDays) + "\n")
  {
    var milestoneText := SkiPersonality.MilestoneText(streakDays);
    var user := "User: " + userName + "\n";
    var streak := "Streak: " + IntToString(streakDays) + " days\n";
    var milestone := "Milestone context: " + milestoneText + "\n";
    var closing := "Generate an enthusiastic Ski the Fox streak celebration.";
    prompt := user + streak + milestone;
    ContainsPrefix(user, streak);
    ContainsAppend(user + streak, user, milestone);
    ContainsConcat(user, streak, milestone);
    ContainsSuffix(user + streak, milestone);
    ContainsAppend(prompt, user, closing);
    ContainsAppend(prompt, streak, closing);
    ContainsAppend(prompt, milestone, closing);
    prompt := prompt + closing;
  }

  /**
   * `getSkiStreakCelebration`: nothing when the call failed or the reply does not validate;
   * otherwise the reply with its streak count replaced by the requested one.
   */
  method GetSkiStreakCelebration(userName: string, streakDays: int, reply: Option<StreakCelebration>)
    returns (prompt: string, r: Option<StreakCelebration>)
    ensures Contains(prompt, "Milestone context: " + SkiPersonality.MilestoneText(streakDays) + "\n")
    ensures r.Some? <==> reply.Some? && ValidCelebration(reply.value)
    ensures r.Some? ==> && r.value.streakCount == streakDays
                        && r.value.celebrationMessage == reply.value.celebrationMessage
                        && r.value.specialAnimation == reply.value.specialAnimation
                        && r.value.rewardSuggestion == reply.value.rewardSuggestion
  {
    prompt := CelebrationRequest(userName, streakDays);
    if reply.None? || !ValidCelebration(reply.value) {
      return prompt, None;
    }
    var validated := reply.value;
    if validated.streakCount != streakDays {
      validated := validated.(streakCount := streakDays);
    }
    r := Some(validated);
  }

  /** The user fields the message request reads; each may be absent. */
  datatype UserContext = UserContext(name: Option<string>, skill: Option<string>, experience: Option<string>,
                                     time: Option<string>)

  datatype StreakInsight = StreakInsight(riskLevel: string, interventionStrategies: Option<seq<string>>)
  datatype AnalyticsInsights = AnalyticsInsights(keyInsights: Option<seq<string>>, streak: Option<StreakInsight>,
                                                 engagementScore: Option<int>)

  datatype SkiMessageInput = SkiMessageInput(userContext: UserContext, situation: string,
                                             customPromptDetails: Option<string>, currentStreakDays: Option<int>,
                                             analyticsInsights: Option<AnalyticsInsights>)

  /** `s || fallback` on an optional string. */
  function OrElse(s: Option<string>, fallback: string): (r: string)
    ensures s.Some? && s.value != "" ==> r == s.value
    ensures !(s.Some? && s.value != "") ==> r == fallback
  {
    if s.Some? && s.value != "" then s.value else fallback
  }

  /** The analytics paragraph: each line is empty when its source is absent (or the score is 0). */
  function AnalyticsParagraph(a: AnalyticsInsights): string
  {
    "\nUser Analytics Insights (use these to personalize the tone and content):\n    "
    + (if a.keyInsights.Some? then "- Key Insights: " + JoinWith(a.keyInsights.value, ", ") else "")
    + "\n    "
    + (if a.streak.Some? then "- Streak Risk: " + a.streak.value.riskLevel else "")
    + "\n    "
    + (if a.engagementScore.Some? && a.engagementScore.value != 0 then "- Engagement Score: " + IntToString(a.engagementScore.value) else "")
    + "\n"
  }

  /** The streak the request names: the given one, or 0 when it is absent or 0. */
  function StreakShown(input: SkiMessageInput): int
  {
    if input.currentStreakDays.Some? then input.currentStreakDays.value else 0
  }

  /** The details line appended for a custom prompt with details. */
  function DetailsLine(details: string): string
  {
    "Specific details for this message: " + details + "\n"
  }

  /**
   * The strategy line appended for a streak-risk intervention whose insights carry a strategy
   * list; an empty list renders its missing first entry as "undefined".
   */
  function StrategyLine(strategies: seq<string>): string
  {
    "Focus on this intervention strategy: " + (if |strategies| > 0 then strategies[0] else "undefined") + "\n"
  }

  predicate WantsDetails(input: SkiMessageInput)
  {
    input.situation == "custom_prompt" && input.customPromptDetails.Some? && input.customPromptDetails.value != ""
  }

  predicate WantsStrategy(input: SkiMessageInput)
  {
    input.situation == "streak_risk_intervention" && input.analyticsInsights.Some?
    && input.analyticsInsights.value.streak.Some? && input.analyticsInsights.value.streak.value.interventionStrategies.Some?
  }

  const CLOSING: string := "Please craft a message according to Ski's personality and the system prompt."

  /**
   * The request of `getSkiMotivationalMessage`, built line by line: the situation and the user
   * fields with their stand-ins ('Learner', 'their learning journey', 'any', streak 0), then the
   * analytics paragraph when there are insights, the details for a custom prompt, the first
   * strategy for a streak-risk intervention, and the closing instruction.
   */
  method MotivationalRequest(input: SkiMessageInput) returns (prompt: string)
    ensures Contains(prompt, "User Name: " + OrElse(input.userContext.name, "Learner") + ".\n")
    ensures Contains(prompt, "Current Streak (if relevant and > 0): " + IntToString(StreakShown(input)) + " days.\n")
    ensures input.analyticsInsights.Some? ==> Contains(prompt, AnalyticsParagraph(input.analyticsInsights.value))
    ensures WantsDetails(input) ==> Contains(prompt, DetailsLine(input.customPromptDetails.value))
    ensures WantsStrategy(input) ==>
              Contains(prompt, StrategyLine(input.analyticsInsights.value.streak.value.interventionStrategies.value))
    ensures EndsWith(prompt, CLOSING)
  {
    var name := "User Name: " + OrElse(input.userContext.name, "Learner") + ".\n";
    var streak := "Current Streak (if relevant and > 0): " + IntToString(StreakShown(input)) + " days.\n";
    prompt := RequestHead(input, name, streak);
    var extra := RequestExtra(input);
    AppendKeeps(prompt, extra, name, streak, input);
    ContainsSuffix(prompt, extra);
    prompt := prompt + extra;
    AppendKeeps(prompt, CLOSING, name, streak, input);
    ContainsAppend(prompt, extra, CLOSING);
    var before := prompt;
    EndsWithAppended(before, CLOSING);
    prompt := before + CLOSING;
  }

  /** The situation, the user fields with their stand-ins, the streak and the analytics paragraph. */
  method RequestHead(input: SkiMessageInput, name: string, streak: string) returns (head: string)
    requires name == "User Name: " + OrElse(input.userContext.name, "Learner") + ".\n"
    requires streak == "Current Streak (if relevant and > 0): " + IntToString(StreakShown(input)) + " days.\n"
    ensures Contains(head, name) && Contains(head, streak)
    ensures input.analyticsInsights.Some? ==> Contains(head, AnalyticsParagraph(input.analyticsInsights.value))
  {
    var u := input.userContext;
    var situation := "Generate a Ski the Fox message.\nSituation: " + input.situation + ".\n";
    var rest := "Current Skill (if relevant): " + OrElse(u.skill, "their learning journey") + ".\n"
                + "Experience Level (if relevant): " + OrElse(u.experience, "any") + ".\n"
                + "Daily Time (if relevant): " + OrElse(u.time, "any") + ".\n";
    ContainsConcat(situation, name, rest);
    ContainsAppend(situation + name + rest, name, streak);
    ContainsSuffix(situation + name + rest, streak);
    head := situation + name + rest + streak;
    if input.analyticsInsights.Some? {
      var paragraph := AnalyticsParagraph(input.analyticsInsights.value);
      ContainsAppend(head, name, paragraph);
      ContainsAppend(head, streak, paragraph);
      ContainsSuffix(head, paragraph);
      head := head + paragraph;
    }
  }

  /** The details line of a custom prompt, then the strategy line of a streak-risk intervention. */
  method RequestExtra(input: SkiMessageInput) returns (extra: string)
    ensures WantsDetails(input) ==> extra == DetailsLine(input.customPromptDetails.value)
    ensures WantsStrategy(input) ==>
              extra == StrategyLine(input.analyticsInsights.value.streak.value.interventionStrategies.value)
  {
    extra := "";
    if input.situation == "custom_prompt" && input.customPromptDetails.Some? && input.customPromptDetails.value != "" {
      extra := extra + DetailsLine(input.customPromptDetails.value);
    }
    if input.situation == "streak_risk_intervention" && input.analyticsInsights.Some?
       && input.analyticsInsights.value.streak.Some? && input.analyticsInsights.value.streak.value.interventionStrategies.Some? {
      extra := extra + StrategyLine(input.analyticsInsights.value.streak.value.interventionStrategies.value);
    }
  }

  /** `s` ends with `t`. */
  predicate EndsWith(s: string, t: string)
  {
    |s| >= |t| && s[|s| - |t|..] == t
  }

  /** What is appended last ends the text. */
  lemma EndsWithAppended(a: string, b: string)
    ensures EndsWith(a + b, b)
  {
    assert (a + b)[|a|..] == b;
  }

  /** Appending keeps the name, streak and analytics lines already in the request. */
  lemma AppendKeeps(prompt: string, extra: string, name: string, streak: string, input: SkiMessageInput)
    requires Contains(prompt, name) && Contains(prompt, streak)
    requires input.analyticsInsights.Some? ==> Contains(prompt, AnalyticsParagraph(input.analyticsInsights.value))
    ensures Contains(prompt + extra, name) && Contains(prompt + extra, streak)
    ensures input.analyticsInsights.Some? ==> Contains(prompt + extra, AnalyticsParagraph(input.analyticsInsights.value))
  {
    ContainsAppend(prompt, name, extra);
    ContainsAppend(prompt, streak, extra);
    if input.analyticsInsights.Some? {
      ContainsAppend(prompt, AnalyticsParagraph(input.analyticsInsights.value), extra);
    }
  }

  /** `getSkiMotivationalMessage`: the validated reply, or nothing when the call or the validation fails. */
  method GetSkiMotivationalMessage(input: SkiMessageInput, reply: Option<SkiMessage>)
    returns (prompt: string, r: Option<SkiMessage>)
    ensures Contains(prompt, "User Name: " + OrElse(input.userContext.name, "Learner") + ".\n")
    ensures WantsDetails(input) ==> Contains(prompt, DetailsLine(input.customPromptDetails.value))
    ensures r.Some? <==> reply.Some? && ValidSkiMessage(reply.value)
    ensures r.Some? ==> r == reply && r.value.message != ""
  {
    prompt := MotivationalRequest(input);
    if reply.None? || !ValidSkiMessage(reply.value) {
      return prompt, None;
    }
    r := reply;
  }
}
