// Ski the Fox's fixed texts and rules: the greeting for a time of day, the
// streak milestone texts and the celebration prompt that carries them, the
// random phrase of a category, and whether Ski shows up. The random choice is
// an input.
module SkiPersonality {
  import opened Wrappers
  import opened Text

  /** The name Ski uses: the user's when it is non-empty, "amigo" otherwise. */
  function GreetingName(userName: Option<string>): (n: string)
    ensures userName.Some? && userName.value != "" ==> n == userName.value
    ensures !(userName.Some? && userName.value != "") ==> n == "amigo"
  {
    if userName.Some? && userName.value != "" then userName.value else "amigo"
  }

  /** `get_ski_greeting`: one template per known time of day, a generic one otherwise; each names the user. */
  function Greeting(timeOfDay: string, userName: Option<string>): (r: string)
    ensures Contains(r, GreetingName(userName))
    ensures timeOfDay == "morning" ==> r == "¡Buenos días, " + GreetingName(userName) + "! ☀️ ¿Listo para brillar hoy? 🦊"
    ensures timeOfDay == "afternoon" ==> r == "¡Hola " + GreetingName(userName) + "! 🌤️ ¡Qué bueno verte por aquí! 🦊"
    ensures timeOfDay == "evening" ==> r == "¡Hey " + GreetingName(userName) + "! 🌙 ¡Terminemos el día aprendiendo! 🦊"
    ensures timeOfDay !in {"morning", "afternoon", "evening"} ==>
              r == "¡Hola " + GreetingName(userName) + "! 🦊 ¡Vamos a aprender algo genial!"
  {
    var name := GreetingName(userName);
    var (head, tail) :=
      if timeOfDay == "morning" then ("¡Buenos días, ", "! ☀️ ¿Listo para brillar hoy? 🦊")
      else if timeOfDay == "afternoon" then ("¡Hola ", "! 🌤️ ¡Qué bueno verte por aquí! 🦊")
      else if timeOfDay == "evening" then ("¡Hey ", "! 🌙 ¡Terminemos el día aprendiendo! 🦊")
      else ("¡Hola ", "! 🦊 ¡Vamos a aprender algo genial!");
    ContainsConcat(head, name, tail);
    head + name + tail
  }

  /** The streaks with a dedicated milestone text. */
  const MILESTONES: set<int> := {3, 7, 14, 30, 50, 100}

  /** The milestone text of a streak: a dedicated text at 3, 7, 14, 30, 50 and 100 days, "¡N días seguidos!" otherwise. */
  function MilestoneText(streakDays: int): (r: string)
    ensures streakDays !in MILESTONES ==>
              r == "¡" + IntToString(streakDays) + " días seguidos!" && Contains(r, IntToString(streakDays))
    ensures streakDays == 3 ==> r == "¡PRIMERA META! 3 días seguidos"
    ensures streakDays == 7 ==> r == "¡UNA SEMANA COMPLETA! Esto se está volviendo un hábito"
    ensures streakDays == 14 ==> r == "¡DOS SEMANAS! Eres imparable"
    ensures streakDays == 30 ==> r == "¡UN MES ENTERO! Eres oficialmente una leyenda"
    ensures streakDays == 50 ==> r == "¡50 DÍAS! Medio centenar de aprendizaje"
    ensures streakDays == 100 ==> r == "¡100 DÍAS! Eres un MAESTRO del aprendizaje constante"
  {
    if streakDays == 3 then "¡PRIMERA META! 3 días seguidos"
    else if streakDays == 7 then "¡UNA SEMANA COMPLETA! Esto se está volviendo un hábito"
    else if streakDays == 14 then "¡DOS SEMANAS! Eres imparable"
    else if streakDays == 30 then "¡UN MES ENTERO! Eres oficialmente una leyenda"
    else if streakDays == 50 then "¡50 DÍAS! Medio centenar de aprendizaje"
    else if streakDays == 100 then "¡100 DÍAS! Eres un MAESTRO del aprendizaje constante"
    else
      ContainsConcat("¡", IntToString(streakDays), " días seguidos!");
      "¡" + IntToString(streakDays) + " días seguidos!"
  }

  /** The instructions that close the celebration prompt. */
  const CELEBRATION_INSTRUCTIONS: string :=
    "\n\nCreate an enthusiastic celebration that:\n1. Acknowledges the specific number\n2. Makes them feel special\n"
    + "3. Encourages them to continue\n4. Suggests a fun animation for Ski"

  /** `create_streak_celebration_prompt`: it names the user, the streak count and the milestone text. */
  function CelebrationPrompt(streakDays: int, userName: string): (r: string)
    ensures Contains(r, userName)
    ensures Contains(r, IntToString(streakDays))
    ensures Contains(r, MilestoneText(streakDays))
  {
    var n := IntToString(streakDays);
    var m := MilestoneText(streakDays);
    var milestone := " days\nMilestone: " + (m + CELEBRATION_INSTRUCTIONS);
    var streak := n + milestone;
    var head := "Celebrate " + userName;
    var rest := "'s achievement:\nStreak: " + streak;
    ContainsSuffix("Celebrate ", userName);
    ContainsAppend(head, userName, rest);
    ContainsPrefix(n, milestone);
    ContainsPrepend("'s achievement:\nStreak: ", streak, n);
    ContainsPrepend(head, rest, n);
    ContainsPrefix(m, CELEBRATION_INSTRUCTIONS);
    ContainsPrepend(" days\nMilestone: ", m + CELEBRATION_INSTRUCTIONS, m);
    ContainsPrepend(n, milestone, m);
    ContainsPrepend("'s achievement:\nStreak: ", streak, m);
    ContainsPrepend(head, rest, m);
    head + rest
  }

  /** The phrase lists of `SKI_PHRASES`. */
  const GREETINGS: seq<string> := ["¡Hola amigo! 🦊", "¡Hey! ¿Listo para aprender? 🎯", "¡Qué alegría verte! 🌟",
                                   "¡Aquí estamos de nuevo! 💪"]
  const CELEBRATIONS: seq<string> := ["¡Eso es! ¡Lo lograste! 🎉", "¡WOW! ¡Eres increíble! 🚀", "¡Sigue así, campeón! 🏆",
                                      "¡Me encanta tu progreso! 💖"]
  const ENCOURAGEMENTS: seq<string> := ["¡Tú puedes! Solo un poco más 💪", "Cada paso cuenta, ¡sigue adelante! 🦊",
                                        "¡Estoy orgulloso de ti! 🌟", "¡No te rindas, casi lo logras! 🎯"]

  /** The list of a category; an unknown category falls back to the greetings. */
  function Phrases(category: string): (r: seq<string>)
    ensures |r| == 4
    ensures category !in {"greetings", "celebrations", "encouragements"} ==> r == GREETINGS
  {
    if category == "celebrations" then CELEBRATIONS
    else if category == "encouragements" then ENCOURAGEMENTS
    else GREETINGS
  }

  /** `get_random_ski_phrase`, with the random draw as `pick`: always a phrase of the category's list. */
  function RandomPhrase(category: string, pick: nat): (r: string)
    ensures r in Phrases(category)
    ensures category !in {"greetings", "celebrations", "encouragements"} ==> r in GREETINGS
  {
    var phrases := Phrases(category);
    phrases[pick % |phrases|]
  }

  /** The user-state flags that call Ski in. */
  const TRIGGERS: seq<string> := ["just_completed_day", "streak_milestone", "struggling", "first_login_today",
                                  "completed_section"]

  /** A flag as `user_state.get(key, False)` reads it. */
  function Flag(userState: map<string, bool>, key: string): bool
  {
    key in userState && userState[key]
  }

  /** `any` over the trigger flags, first to last. */
  function AnyFlag(userState: map<string, bool>, keys: seq<string>): (r: bool)
    ensures r <==> exists i :: 0 <= i < |keys| && Flag(userState, keys[i])
  {
    if |keys| == 0 then false
    else
      var rest := AnyFlag(userState, keys[1..]);
      assert forall i :: 1 <= i < |keys| ==> keys[i] == keys[1..][i - 1];
      Flag(userState, keys[0]) || rest
  }

  /** `should_ski_appear`: true iff one of the five flags is present and true; absent flags are false. */
  function ShouldSkiAppear(userState: map<string, bool>): (r: bool)
    ensures r <==> exists k :: k in TRIGGERS && k in userState && userState[k]
  {
    var r := AnyFlag(userState, TRIGGERS);
    assert forall k :: k in TRIGGERS ==> exists i :: 0 <= i < |TRIGGERS| && TRIGGERS[i] == k;
    r
  }

  /** Flags outside the five never call Ski in. */
  lemma OtherFlagsIgnored(userState: map<string, bool>, key: string, value: bool)
    requires key !in TRIGGERS
    ensures ShouldSkiAppear(userState[key := value]) == ShouldSkiAppear(userState)
  {
  }
}
