// The file-backed store of onboarding preferences, user profiles, course
// enrollments and per-day content. Every file is modelled as an entry of a
// map keyed by the path components; writing a file replaces the whole entry.
module Storage {
  import opened Wrappers
  import Course

  /** A timestamp as its ISO-8601 text. */
  type Timestamp = string

  datatype UserPreferences = UserPreferences(
    name: string, skill: string, experience: string, motivation: string, time: string,
    learningStyle: string, goal: string, createdAt: Timestamp, updatedAt: Timestamp)

  datatype UserProfile = UserProfile(name: string, email: string, preferences: map<string, string>, authProvider: string)

  datatype EnrollmentDay = EnrollmentDay(
    title: string,
    isActionDay: bool,
    blocks: seq<Course.Block>,
    actionTask: Option<string>,
    score: Option<real>,
    feedback: Option<string>,
    completedAt: Option<Timestamp>)

  /** A day record as constructed from its three required fields. */
  function NewEnrollmentDay(title: string, isActionDay: bool, blocks: seq<Course.Block>): (d: EnrollmentDay)
    ensures d.title == title && d.isActionDay == isActionDay && d.blocks == blocks
    ensures d.actionTask.None? && d.score.None? && d.feedback.None? && d.completedAt.None?
  {
    EnrollmentDay(title, isActionDay, blocks, None, None, None, None)
  }

  /** The parts of `roadmap_json` that are read back: each section's list of days. */
  datatype RoadmapSection = RoadmapSection(title: string, days: Option<seq<string>>)
  datatype Roadmap = Roadmap(sections: Option<seq<RoadmapSection>>)

  datatype Enrollment = Enrollment(
    roadmap: Roadmap,
    lastGeneratedDay: int,
    streak: int,
    xpTotal: int,
    createdAt: Timestamp,
    updatedAt: Timestamp,
    days: map<int, EnrollmentDay>)

  /** The enrollment `create_enrollment` writes: no progress yet. */
  function NewEnrollment(roadmap: Roadmap, now: Timestamp): (e: Enrollment)
    ensures e.roadmap == roadmap
    ensures e.lastGeneratedDay == 0 && e.streak == 0 && e.xpTotal == 0 && e.days == map[]
    ensures e.createdAt == now && e.updatedAt == now
  {
    Enrollment(roadmap, 0, 0, 0, now, now, map[])
  }

  /** users/<uid>/enrollments/<course_id> */
  datatype EnrollmentKey = EnrollmentKey(uid: string, courseId: string)
  /** users/<uid>/enrollments/<course_id>/days/<day_number> */
  datatype DayKey = DayKey(uid: string, courseId: string, day: int)

  class StorageService {
    /** users/<uid>/preferences.json */
    var preferences: map<string, UserPreferences>
    /** users/<uid>/profile */
    var profiles: map<string, UserProfile>
    /** users/<uid>/enrollments/<course_id>/enrollment.json */
    var enrollments: map<EnrollmentKey, Enrollment>
    /** users/<uid>/enrollments/<course_id>/days/<n> */
    var days: map<DayKey, EnrollmentDay>
    /** The enrollment directories that exist. */
    var enrollmentDirs: set<EnrollmentKey>

    /** A file can only exist inside an existing enrollment directory. */
    ghost predicate Valid()
      reads this
    {
      && (forall k :: k in enrollments ==> k in enrollmentDirs)
      && (forall k :: k in days ==> EnrollmentKey(k.uid, k.courseId) in enrollmentDirs)
    }

    /** A store over an empty base directory. */
    constructor()
      ensures Valid()
      ensures preferences == map[] && profiles == map[] && enrollments == map[] && days == map[]
      ensures enrollmentDirs == {}
    {
      preferences := map[];
      profiles := map[];
      enrollments := map[];
      days := map[];
      enrollmentDirs := {};
    }

    /** `save_user_preferences`: replaces the user's preferences file. */
    method SaveUserPreferences(uid: string, prefs: UserPreferences)
      requires Valid()
      modifies this
      ensures Valid()
      ensures preferences == old(preferences)[uid := prefs]
      ensures GetUserPreferences(uid) == Some(prefs)
      ensures forall u :: u != uid ==> GetUserPreferences(u) == old(GetUserPreferences(u))
      ensures profiles == old(profiles) && enrollments == old(enrollments) && days == old(days)
      ensures enrollmentDirs == old(enrollmentDirs)
    {
      preferences := preferences[uid := prefs];
    }

    /** `get_user_preferences`: the stored preferences, or None when the file is absent. */
    function GetUserPreferences(uid: string): (r: Option<UserPreferences>)
      reads this
      ensures r.Some? <==> uid in preferences
      ensures r.Some? ==> r.value == preferences[uid]
    {
      if uid in preferences then Some(preferences[uid]) else None
    }

    /** `save_user_profile`: replaces the user's profile file. */
    method SaveUserProfile(uid: string, profile: UserProfile)
      requires Valid()
      modifies this
      ensures Valid()
      ensures profiles == old(profiles)[uid := profile]
      ensures GetUserProfile(uid) == Some(profile)
      ensures forall u :: u != uid ==> GetUserProfile(u) == old(GetUserProfile(u))
      ensures preferences == old(preferences) && enrollments == old(enrollments) && days == old(days)
      ensures enrollmentDirs == old(enrollmentDirs)
    {
      profiles := profiles[uid := profile];
    }

    /** `get_user_profile`: the stored profile, or None when the file is absent. */
    function GetUserProfile(uid: string): (r: Option<UserProfile>)
      reads this
      ensures r.Some? <==> uid in profiles
      ensures r.Some? ==> r.value == profiles[uid]
    {
      if uid in profiles then Some(profiles[uid]) else None
    }

    /**
     * `create_enrollment`: writes a fresh enrollment, replacing any existing one for the
     * same user and course, and returns it.
     */
    method CreateEnrollment(uid: string, courseId: string, roadmap: Roadmap, now: Timestamp) returns (e: Enrollment)
      requires Valid()
      modifies this
      ensures Valid()
      ensures e == NewEnrollment(roadmap, now)
      ensures enrollments == old(enrollments)[EnrollmentKey(uid, courseId) := e]
      ensures GetEnrollment(uid, courseId) == Some(e)
      ensures enrollmentDirs == old(enrollmentDirs) + {EnrollmentKey(uid, courseId)}
      ensures preferences == old(preferences) && profiles == old(profiles) && days == old(days)
    {
      e := NewEnrollment(roadmap, now);
      enrollmentDirs := enrollmentDirs + {EnrollmentKey(uid, courseId)};
      enrollments := enrollments[EnrollmentKey(uid, courseId) := e];
    }

    /**
     * `save_day_content`: replaces one day file, creating the enrollment's `days`
     * directory; the enrollment record, including its `days` map, is not touched.
     */
    method SaveDayContent(uid: string, courseId: string, day: int, content: EnrollmentDay)
      requires Valid()
      modifies this
      ensures Valid()
      ensures days == old(days)[DayKey(uid, courseId, day) := content]
      ensures GetDayContent(uid, courseId, day) == Some(content)
      ensures forall u, c, d :: DayKey(u, c, d) != DayKey(uid, courseId, day) ==>
                GetDayContent(u, c, d) == old(GetDayContent(u, c, d))
      ensures enrollments == old(enrollments)
      ensures enrollmentDirs == old(enrollmentDirs) + {EnrollmentKey(uid, courseId)}
      ensures preferences == old(preferences) && profiles == old(profiles)
    {
      enrollmentDirs := enrollmentDirs + {EnrollmentKey(uid, courseId)};
      days := days[DayKey(uid, courseId, day) := content];
    }

    /** `get_day_content`: the stored day, or None when it was never saved. */
    function GetDayContent(uid: string, courseId: string, day: int): (r: Option<EnrollmentDay>)
      reads this
      ensures r.Some? <==> DayKey(uid, courseId, day) in days
      ensures r.Some? ==> r.value == days[DayKey(uid, courseId, day)]
    {
      var k := DayKey(uid, courseId, day);
      if k in days then Some(days[k]) else None
    }

    /** `get_enrollment`: the stored enrollment, or None when there is none. */
    function GetEnrollment(uid: string, courseId: string): (r: Option<Enrollment>)
      reads this
      ensures r.Some? <==> EnrollmentKey(uid, courseId) in enrollments
      ensures r.Some? ==> r.value == enrollments[EnrollmentKey(uid, courseId)]
    {
      var k := EnrollmentKey(uid, courseId);
      if k in enrollments then Some(enrollments[k]) else None
    }

    /**
     * `update_enrollment`: replaces the enrollment file. It does not create directories,
     * so the write fails (`written` is false, nothing changes) unless the enrollment
     * directory was created by an earlier `create_enrollment` or `save_day_content`.
     */
    method UpdateEnrollment(uid: string, courseId: string, e: Enrollment) returns (written: bool)
      requires Valid()
      modifies this
      ensures Valid()
      ensures written <==> EnrollmentKey(uid, courseId) in old(enrollmentDirs)
      ensures written ==> enrollments == old(enrollments)[EnrollmentKey(uid, courseId) := e]
      ensures written ==> GetEnrollment(uid, courseId) == Some(e)
      ensures !written ==> enrollments == old(enrollments)
      ensures days == old(days) && enrollmentDirs == old(enrollmentDirs)
      ensures preferences == old(preferences) && profiles == old(profiles)
    {
      written := EnrollmentKey(uid, courseId) in enrollmentDirs;
      if written {
        enrollments := enrollments[EnrollmentKey(uid, courseId) := e];
      }
    }
  }
}
