// The notification service: the payload chosen from a user's analytics, and
// the per-token send loops of the learning reminder and the achievement
// notification. The device-token lookup, the Ski message generator and the
// push-delivery call are inputs; the messages handed to the push service and
// the Ski requests made are recorded by an outbox object.
module Notifications {
  import opened Wrappers
  import Text

  datatype OptimalTime = OptimalTime(windowStart: string, windowEnd: string, reason: string)
  datatype StreakAnalysis = StreakAnalysis(riskLevel: string, riskFactors: seq<string>,
                                           interventionStrategies: seq<string>, motivationalApproach: string)
  datatype UserAnalytics = UserAnalytics(optimalLearningTime: Option<OptimalTime>,
                                         streakMaintenance: Option<StreakAnalysis>, keyInsights: seq<string>)

  datatype Payload = Payload(title: string, body: string, data: map<string, string>)

  const DEFAULT_TITLE: string := "🔔 Skillix Recordatorio!"
  const DEFAULT_BODY: string := "Es un buen momento " + "para continuar tu aprendizaje."
  const OPTIMAL_TITLE: string := "🧠 Tu momento óptimo para aprender en Skillix!"
  const STREAK_SAVER_TITLE: string := "🚀 ¡No dejes que tu racha se apague!"
  const MAINTENANCE_FALLBACK: string := "Un poco cada día hace una gran diferencia."

  /** The body for the optimal learning window; an absent or empty skill reads "algo nuevo". */
  function OptimalBody(t: OptimalTime, skill: Option<string>): string
  {
    "Según tus patrones, ¡ahora (" + t.windowStart + " - " + t.windowEnd + ") es un gran momento para aprender "
    + (if skill.Some? && skill.value != "" then skill.value else "algo nuevo") + "! " + Text.Lower(t.reason)
  }

  /** High risk only counts when there is a strategy to offer. */
  predicate HighRisk(a: UserAnalytics)
  {
    a.streakMaintenance.Some? && a.streakMaintenance.value.riskLevel == "high"
    && |a.streakMaintenance.value.interventionStrategies| > 0
  }

  predicate MediumRisk(a: UserAnalytics)
  {
    a.streakMaintenance.Some? && a.streakMaintenance.value.riskLevel == "medium"
  }

  /** The medium-risk body: the first strategy, or a stock sentence when there is none or it is empty. */
  function MaintenanceBody(s: StreakAnalysis): string
  {
    "¡Sigue con tu racha de aprendizaje! "
    + (if |s.interventionStrategies| > 0 && s.interventionStrategies[0] != "" then s.interventionStrategies[0]
       else MAINTENANCE_FALLBACK)
  }

  /** The reminder's title: the streak saver's over the optimal window's over the default. */
  function ReminderTitle(a: UserAnalytics): string
  {
    if HighRisk(a) then STREAK_SAVER_TITLE else if a.optimalLearningTime.Some? then OPTIMAL_TITLE else DEFAULT_TITLE
  }

  /** The reminder's body before the key-insight fallback. */
  function ChosenBody(a: UserAnalytics, skill: Option<string>, skiMessage: Option<string>): string
  {
    if HighRisk(a) then
      (if skiMessage.Some? && skiMessage.value != "" then skiMessage.value
       else a.streakMaintenance.value.interventionStrategies[0])
    else if MediumRisk(a) then MaintenanceBody(a.streakMaintenance.value)
    else if a.optimalLearningTime.Some? then OptimalBody(a.optimalLearningTime.value, skill)
    else DEFAULT_BODY
  }

  /** The reminder's data: its type, and the home-screen deep link with an optimal window. */
  function ReminderData(a: UserAnalytics): map<string, string>
  {
    var kind := if HighRisk(a) then "streak_saver_reminder"
                else if MediumRisk(a) then "streak_maintenance_reminder"
                else "learning_reminder";
    if a.optimalLearningTime.Some? then map["type" := kind, "deep_link" := "home_screen"] else map["type" := kind]
  }

  /** The reminder payload the analytics call for; a body still at the default takes the first key insight. */
  function ReminderPayload(a: UserAnalytics, skill: Option<string>, skiMessage: Option<string>): Payload
  {
    var before := ChosenBody(a, skill, skiMessage);
    Payload(ReminderTitle(a), if before == DEFAULT_BODY && |a.keyInsights| > 0 then a.keyInsights[0] else before,
            ReminderData(a))
  }

  /**
   * What the reminder promises: a high risk with a strategy wins the title over the optimal
   * window, while the window's deep link stays; only "type" and "deep_link" are ever set; a
   * medium risk's body opens with the streak sentence; an answer from Ski is the high-risk body
   * unless it is the default sentence, which the key-insight fallback then replaces.
   */
  lemma ReminderPayloadFacts(a: UserAnalytics, skill: Option<string>, skiMessage: Option<string>)
    ensures var p := ReminderPayload(a, skill, skiMessage);
            && "type" in p.data && p.data.Keys <= {"type", "deep_link"}
            && ("deep_link" in p.data <==> a.optimalLearningTime.Some?)
            && (HighRisk(a) ==> p.title == STREAK_SAVER_TITLE && p.data["type"] == "streak_saver_reminder")
            && (HighRisk(a) && skiMessage.Some? && skiMessage.value !in {"", DEFAULT_BODY} ==> p.body == skiMessage.value)
            && (!HighRisk(a) && a.optimalLearningTime.Some? ==> p.title == OPTIMAL_TITLE)
            && (MediumRisk(a) ==> "¡Sigue con tu racha de aprendizaje! " <= p.body
                                  && p.data["type"] == "streak_maintenance_reminder")
  {
    var p := ReminderPayload(a, skill, skiMessage);
    if MediumRisk(a) {
      var s := a.streakMaintenance.value;
      var prefix := "¡Sigue con tu racha de aprendizaje! ";
      var rest := if |s.interventionStrategies| > 0 && s.interventionStrategies[0] != "" then s.interventionStrategies[0]
                  else MAINTENANCE_FALLBACK;
      var body := MaintenanceBody(s);
      assert body == prefix + rest;
      assert body[0] == prefix[0] == '¡';
      assert DEFAULT_BODY[0] == "Es un buen momento "[0] == 'E';
    }
  }

  /**
   * `prepareNotificationFromAnalytics`. Starting from the default reminder, an optimal window
   * sets its title, body and a home-screen deep link; a high streak risk with a strategy then
   * sets the streak-saver title and the Ski message as body (the first strategy when Ski gives
   * nothing), and a medium risk the maintenance body; a body still at its default takes the
   * first key insight. `askedSki` says whether the Ski generator was called.
   */
  method PrepareNotification(a: UserAnalytics, skill: Option<string>, skiMessage: Option<string>)
    returns (p: Payload, askedSki: bool)
    ensures askedSki <==> HighRisk(a)
    ensures p == ReminderPayload(a, skill, skiMessage)
  {
    var title := DEFAULT_TITLE;
    var body := DEFAULT_BODY;
    var data: map<string, string> := map["type" := "learning_reminder"];
    askedSki := false;
    if a.optimalLearningTime.Some? {
      title := OPTIMAL_TITLE;
      body := OptimalBody(a.optimalLearningTime.value, skill);
      data := data["deep_link" := "home_screen"];
    }
    if a.streakMaintenance.Some? {
      var streak := a.streakMaintenance.value;
      if streak.riskLevel == "high" && |streak.interventionStrategies| > 0 {
        title := STREAK_SAVER_TITLE;
        askedSki := true;
        body := if skiMessage.Some? && skiMessage.value != "" then skiMessage.value else streak.interventionStrategies[0];
        data := data["type" := "streak_saver_reminder"];
      } else if streak.riskLevel == "medium" {
        body := MaintenanceBody(streak);
        data := data["type" := "streak_maintenance_reminder"];
      }
    }
    assert title == ReminderTitle(a) && body == ChosenBody(a, skill, skiMessage);
    assert data == ReminderData(a);
    if body == DEFAULT_BODY && |a.keyInsights| > 0 {
      body := a.keyInsights[0];
    }
    p := Payload(title, body, data);
  }

  /** The title of the achievement notification: a festive one when Ski answered at all. */
  function AchievementTitle(skiMessage: Option<string>): string
  {
    if skiMessage.Some? then "🎉 ¡Felicidades!" else "¡Gran Trabajo!"
  }

  /** The body: Ski's message when it is non-empty, a stock sentence naming the achievement otherwise. */
  function AchievementBody(achievement: string, skiMessage: Option<string>): (b: string)
    ensures skiMessage.Some? && skiMessage.value != "" ==> b == skiMessage.value
    ensures !(skiMessage.Some? && skiMessage.value != "") ==>
              Text.Contains(b, achievement) && b == "¡Has logrado: " + achievement + "! Sigue así."
  {
    if skiMessage.Some? && skiMessage.value != "" then skiMessage.value
    else
      Text.ContainsConcat("¡Has logrado: ", achievement, "! Sigue así.");
      "¡Has logrado: " + achievement + "! Sigue así."
  }

  /** One push message as handed to the delivery service. */
  datatype PushMessage = PushMessage(token: string, title: string, body: string, data: map<string, string>)

  /** The same payload addressed to each token in turn. */
  function Addressed(tokens: seq<string>, title: string, body: string, data: map<string, string>): (r: seq<PushMessage>)
    ensures |r| == |tokens|
    ensures forall i :: 0 <= i < |tokens| ==> r[i] == PushMessage(tokens[i], title, body, data)
  {
    if |tokens| == 0 then [] else Addressed(tokens[..|tokens| - 1], title, body, data) + [PushMessage(tokens[|tokens| - 1], title, body, data)]
  }

  /** Every token's delivery succeeded. */
  predicate AllDelivered(tokens: seq<string>, delivers: string -> bool)
  {
    forall i :: 0 <= i < |tokens| ==> delivers(tokens[i])
  }

  /** The record of what the service handed to the push service and to the Ski generator. */
  class Outbox {
    var sent: seq<PushMessage>
    var skiRequests: seq<string>

    constructor()
      ensures sent == [] && skiRequests == []
    {
      sent := [];
      skiRequests := [];
    }

    /**
     * The send loop: one delivery per token, in order, continuing past failures; true iff every
     * delivery succeeded (not, as the doc comment says, at least one).
     */
    method SendAll(tokens: seq<string>, title: string, body: string, data: map<string, string>, delivers: string -> bool)
      returns (allSent: bool)
      modifies this
      ensures sent == old(sent) + Addressed(tokens, title, body, data)
      ensures skiRequests == old(skiRequests)
      ensures allSent <==> AllDelivered(tokens, delivers)
    {
      allSent := true;
      var i := 0;
      while i < |tokens|
        invariant 0 <= i <= |tokens|
        invariant sent == old(sent) + Addressed(tokens[..i], title, body, data)
        invariant skiRequests == old(skiRequests)
        invariant allSent <==> AllDelivered(tokens[..i], delivers)
      {
        assert tokens[..i + 1][..i] == tokens[..i];
        sent := sent + [PushMessage(tokens[i], title, body, data)];
        var ok := delivers(tokens[i]);
        if !ok {
          allSent := false;
        }
        i := i + 1;
      }
      assert tokens[..i] == tokens;
    }

    /**
     * `sendLearningReminderNotification`: no tokens, or an empty list, returns false with nothing
     * sent and no Ski request; otherwise the prepared payload goes to every token.
     */
    method SendLearningReminder(tokens: Option<seq<string>>, a: UserAnalytics, skill: Option<string>,
                                skiMessage: Option<string>, delivers: string -> bool)
      returns (ok: bool)
      modifies this
      ensures tokens.None? || |tokens.value| == 0 ==> !ok && sent == old(sent) && skiRequests == old(skiRequests)
      ensures tokens.Some? && |tokens.value| > 0 ==>
                && (var p := ReminderPayload(a, skill, skiMessage);
                    sent == old(sent) + Addressed(tokens.value, p.title, p.body, p.data))
                && (ok <==> AllDelivered(tokens.value, delivers))
                && skiRequests == old(skiRequests) + (if HighRisk(a) then ["custom_prompt"] else [])
    {
      if tokens.None? || |tokens.value| == 0 {
        return false;
      }
      var payload, askedSki := PrepareNotification(a, skill, skiMessage);
      if askedSki {
        skiRequests := skiRequests + ["custom_prompt"];
      }
      ok := SendAll(tokens.value, payload.title, payload.body, payload.data, delivers);
    }

    /**
     * `sendAchievementNotification`: no tokens returns false before Ski is asked; otherwise Ski
     * is asked once and the achievement payload, with its fallbacks, goes to every token.
     */
    method SendAchievement(tokens: Option<seq<string>>, achievement: string, skiMessage: Option<string>,
                           delivers: string -> bool)
      returns (ok: bool)
      modifies this
      ensures tokens.None? || |tokens.value| == 0 ==> !ok && sent == old(sent) && skiRequests == old(skiRequests)
      ensures tokens.Some? && |tokens.value| > 0 ==>
                && skiRequests == old(skiRequests) + ["milestone_achieved"]
                && sent == old(sent) + Addressed(tokens.value, AchievementTitle(skiMessage),
                                                 AchievementBody(achievement, skiMessage),
                                                 map["type" := "achievement_notification", "achievement_details" := achievement])
                && (ok <==> AllDelivered(tokens.value, delivers))
    {
      if tokens.None? || |tokens.value| == 0 {
        return false;
      }
      skiRequests := skiRequests + ["milestone_achieved"];
      var data := map["type" := "achievement_notification", "achievement_details" := achievement];
      ok := SendAll(tokens.value, AchievementTitle(skiMessage), AchievementBody(achievement, skiMessage), data, delivers);
    }
  }
}
