// The learning-plan controller: the minutes parsed out of the onboarding time
// text, the order in which preferences, plan, enrollment and first day are
// written, the choice between the initial and the refined plan, and the
// ownership check when a plan is fetched. The LLM calls and the database
// writes are inputs; the writes the controller issues are returned in order.
module LearningPlan {
  import opened Wrappers
  import opened Text

  /** `s.replace(/\D/g, '')`: the ASCII digits of `s`, in order. */
  function OnlyDigits(s: string): (r: string)
    ensures AllDigits(r) && |r| <= |s|
    ensures AllDigits(s) ==> r == s
  {
    if |s| == 0 then ""
    else OnlyDigits(s[..|s| - 1]) + (if IsDigit(s[|s| - 1]) then [s[|s| - 1]] else [])
  }

  lemma {:induction false} OnlyDigitsAppend(a: string, b: string)
    ensures OnlyDigits(a + b) == OnlyDigits(a) + OnlyDigits(b)
    decreases |b|
  {
    if |b| == 0 {
      assert a + b == a;
    } else {
      assert (a + b)[..|a + b| - 1] == a + b[..|b| - 1];
      assert (a + b)[|a + b| - 1] == b[|b| - 1];
      OnlyDigitsAppend(a, b[..|b| - 1]);
    }
  }

  /** Digits are kept, anything else is dropped. */
  lemma OnlyDigitsOfChar(c: char)
    ensures OnlyDigits([c]) == if IsDigit(c) then [c] else []
  {
    assert [c][..0] == [];
  }

  /**
   * `availableTimeMinutes`: the number written by all the digits of the time text, in order,
   * whatever separates them; 15 when the text is absent or has no digit.
   */
  function AvailableTimeMinutes(time: Option<string>): (m: nat)
    ensures time.None? || OnlyDigits(time.value) == "" ==> m == 15
    ensures time.Some? && OnlyDigits(time.value) != "" ==> m == DigitsValue(OnlyDigits(time.value))
  {
    if time.None? then 15
    else
      var digits := OnlyDigits(time.value);
      if digits == "" then 15 else DigitsValue(digits)
  }

  /** Appending one character to a text appends it to the digits exactly when it is a digit. */
  lemma OnlyDigitsSnoc(s: string, c: char)
    ensures OnlyDigits(s + [c]) == OnlyDigits(s) + (if IsDigit(c) then [c] else [])
  {
    assert (s + [c])[..|s|] == s;
  }

  /** The digits of "1h 30", read one character at a time; "1h" is its first stage. */
  lemma DigitsOfHourText()
    ensures OnlyDigits("1h") == "1" && OnlyDigits("1h 30") == "130"
  {
    OnlyDigitsOfChar('1');
    assert "1h" == "1" + ['h'];
    OnlyDigitsSnoc("1", 'h');
    assert "1h " == "1h" + [' '];
    OnlyDigitsSnoc("1h", ' ');
    assert "1h 3" == "1h " + ['3'];
    OnlyDigitsSnoc("1h ", '3');
    assert "1h 30" == "1h 3" + ['0'];
    OnlyDigitsSnoc("1h 3", '0');
  }

  /** "1h" is read as 1 minute and "1h 30" as 130: the unit and the gap are dropped. */
  lemma HoursMisread()
    ensures AvailableTimeMinutes(Some("1h")) == 1
    ensures AvailableTimeMinutes(Some("1h 30")) == 130
  {
    DigitsOfHourText();
    assert "1"[..0] == "";
    assert "130"[..2] == "13" && "13"[..1] == "1";
  }

  /** A time text written with digits only is read as that number. */
  lemma PlainMinutes(n: nat)
    ensures AvailableTimeMinutes(Some(NatToString(n))) == n
  {
    DigitsValueOfNatToString(n);
  }

  /** A learning plan as the planner returns it: its skill name and the rest of its content. */
  datatype Plan = Plan(skillName: string, content: string)

  /**
   * The plan that is saved: the refined plan when the pedagogical analysis and the refinement
   * both succeed, the initial plan otherwise; its skill name is always the requested skill.
   */
  function FinalPlan(skill: string, initialPlan: Plan, analysis: Option<string>, refined: Option<Plan>): (p: Plan)
    ensures p.skillName == skill
    ensures analysis.Some? && refined.Some? ==> p.content == refined.value.content
    ensures !(analysis.Some? && refined.Some?) ==> p.content == initialPlan.content
  {
    if analysis.Some? && refined.Some? then refined.value.(skillName := skill) else initialPlan.(skillName := skill)
  }

  /** The writes the controller issues, in order. */
  datatype Write =
    | SavePreference(uid: string, skill: string, availableTimeMinutes: nat)
    | SavePlan(uid: string, plan: Plan, analysis: Option<string>)
    | CreateEnrollment(uid: string, planId: string)
    | GenerateDay(uid: string, planId: string, dayNumber: int)

  datatype OnboardingPrefs = OnboardingPrefs(skill: string, time: Option<string>)

  datatype CreateReply =
    | Created(planId: string, analysis: Option<string>, initialContent: Option<string>)
    | Refused(status: int, message: string)

  /** What the LLM and database calls of one request give back. */
  datatype Oracles = Oracles(initialPlan: Option<Plan>, analysis: Option<string>, refined: Option<Plan>,
                             savedPlanId: Option<string>, enrollmentCreated: bool, day1: Option<string>)

  /**
   * `createLearningPlanController`. Invalid input is answered 400 before the user is looked at,
   * a missing user 401; otherwise the preferences are written first, so they stay written when
   * the plan generation then fails (500). A saved plan without an id is a 500; once it has an
   * id, the enrollment and the first day are attempted and neither failure stops the 201.
   */
  method CreateLearningPlan(inputValid: bool, uid: Option<string>, prefs: OnboardingPrefs, o: Oracles)
    returns (reply: CreateReply, writes: seq<Write>)
    ensures !inputValid ==> reply == Refused(400, "Invalid input data for plan creation.") && writes == []
    ensures inputValid && uid.None? ==> reply == Refused(401, "User not authenticated.") && writes == []
    ensures inputValid && uid.Some? ==>
              |writes| >= 1 && writes[0] == SavePreference(uid.value, prefs.skill, AvailableTimeMinutes(prefs.time))
    ensures inputValid && uid.Some? && o.initialPlan.None? ==>
              reply == Refused(500, "Failed to generate the learning plan.") && |writes| == 1
    ensures inputValid && uid.Some? && o.initialPlan.Some? ==>
              |writes| >= 2
              && writes[1] == SavePlan(uid.value, FinalPlan(prefs.skill, o.initialPlan.value, o.analysis, o.refined), o.analysis)
    ensures inputValid && uid.Some? && o.initialPlan.Some? && (o.savedPlanId.None? || o.savedPlanId.value == "") ==>
              reply == Refused(500, "Failed to save the learning plan to the database.") && |writes| == 2
    ensures reply.Created? <==> inputValid && uid.Some? && o.initialPlan.Some? && o.savedPlanId.Some? && o.savedPlanId.value != ""
    ensures reply.Created? ==>
              && reply == Created(o.savedPlanId.value, o.analysis, o.day1)
              && writes[2..] == [CreateEnrollment(uid.value, o.savedPlanId.value), GenerateDay(uid.value, o.savedPlanId.value, 1)]
              && |writes| == 4
  {
    writes := [];
    if !inputValid {
      return Refused(400, "Invalid input data for plan creation."), writes;
    }
    if uid.None? {
      return Refused(401, "User not authenticated."), writes;
    }
    var minutes := AvailableTimeMinutes(prefs.time);
    writes := writes + [SavePreference(uid.value, prefs.skill, minutes)];
    if o.initialPlan.None? {
      return Refused(500, "Failed to generate the learning plan."), writes;
    }
    var finalPlan := o.initialPlan.value.(skillName := prefs.skill);
    if o.analysis.Some? {
      if o.refined.Some? {
        finalPlan := o.refined.value.(skillName := prefs.skill);
      }
    }
    writes := writes + [SavePlan(uid.value, finalPlan, o.analysis)];
    if o.savedPlanId.None? || o.savedPlanId.value == "" {
      return Refused(500, "Failed to save the learning plan to the database."), writes;
    }
    var planId := o.savedPlanId.value;
    writes := writes + [CreateEnrollment(uid.value, planId)];
    writes := writes + [GenerateDay(uid.value, planId, 1)];
    reply := Created(planId, o.analysis, o.day1);
  }

  /** The answer of the two plan lookups. */
  datatype FetchReply = Found(plan: StoredPlan) | FetchRefused(status: int, message: string)

  datatype StoredPlan = StoredPlan(id: string, ownerUid: string, plan: Plan)

  /** `getCurrentLearningPlanController`: 401 without a user, 404 without an active plan. */
  function GetCurrentLearningPlan(uid: Option<string>, current: Option<StoredPlan>): (r: FetchReply)
    ensures r.Found? <==> uid.Some? && current.Some?
    ensures r.Found? ==> r.plan == current.value
    ensures uid.Some? && current.None? ==> r == FetchRefused(404, "No active learning plan found for the user.")
  {
    if uid.None? then FetchRefused(401, "User not authenticated.")
    else if current.None? then FetchRefused(404, "No active learning plan found for the user.")
    else Found(current.value)
  }

  /**
   * `getLearningPlanByIdController`: 401 without a user, 400 without an id, 404 for an unknown
   * plan, 403 for another user's plan.
   */
  function GetLearningPlanById(uid: Option<string>, id: string, stored: Option<StoredPlan>): (r: FetchReply)
    ensures uid.None? ==> r.FetchRefused? && r.status == 401
    ensures uid.Some? && id == "" ==> r.FetchRefused? && r.status == 400
    ensures uid.Some? && id != "" && stored.None? ==> r == FetchRefused(404, "Learning plan not found.")
    ensures uid.Some? && id != "" && stored.Some? && stored.value.ownerUid != uid.value ==>
              r == FetchRefused(403, "Access denied. You can only access your own learning plans.")
    ensures r.Found? <==> uid.Some? && id != "" && stored.Some? && stored.value.ownerUid == uid.value
    ensures r.Found? ==> r.plan == stored.value
  {
    if uid.None? then FetchRefused(401, "User not authenticated.")
    else if id == "" then FetchRefused(400, "Learning plan ID is required.")
    else if stored.None? then FetchRefused(404, "Learning plan not found.")
    else if stored.value.ownerUid != uid.value then FetchRefused(403, "Access denied. You can only access your own learning plans.")
    else Found(stored.value)
  }
}
