/** The server of the activity sign-up system: an in-memory registry of
    activities (each with an ordered participant list) and a table of teacher
    sessions (token to username), with the request handlers that read or
    change them.

    Each handler is given twice: as a pure transition function, which says
    what the request answers and what the new state is, and as a method of
    `Server`, which changes the two tables in place the way the handler does
    and is proved to agree with the function. The properties of the system
    are lemmas about the functions. */
module Registry {
  import opened Wrappers

  /** One activity record. `participants` keeps sign-up order. */
  datatype Activity = Activity(
    description: string,
    schedule: string,
    maxParticipants: int,
    participants: seq<string>)

  /** Activity name to activity record. */
  type Activities = map<string, Activity>

  /** Session token to the username of the teacher who logged in with it. */
  type Sessions = map<string, string>

  /** Teacher username to password. */
  type Teachers = map<string, string>

  /** A refused request: the HTTP status and the `detail` of the reply. */
  datatype HttpError = HttpError(status: int, detail: string)

  datatype Result<T> = Ok(value: T) | Err(error: HttpError)

  const LoginRequired := HttpError(403, "Teacher login is required for this action")
  const InvalidCredentials := HttpError(401, "Invalid teacher credentials")
  const ActivityNotFound := HttpError(404, "Activity not found")
  const AlreadySignedUp := HttpError(400, "Student is already signed up")
  const NotSignedUp := HttpError(400, "Student is not signed up for this activity")

  const LoggedOutMessage := "Logged out"

  /** Body of a successful login reply. */
  datatype LoginReply = LoginReply(message: string, token: string, username: string)

  /** Body of a successful sign-up or unregister reply. */
  datatype ChangeReply = ChangeReply(message: string, updatedBy: string)

  /** What a request answers, together with the table it leaves behind. */
  datatype Step<T, S> = Step(result: Result<T>, state: S)

  predicate NoDuplicates(s: seq<string>) {
    forall i, j :: 0 <= i < j < |s| ==> s[i] != s[j]
  }

  /** The registry invariant: no student is listed twice in one activity. */
  predicate WellFormed(activities: Activities) {
    forall name :: name in activities ==> NoDuplicates(activities[name].participants)
  }

  /** `after` differs from `before` only in the participant list of `name`,
      which is now `list`. */
  predicate OnlyListChanged(before: Activities, after: Activities, name: string, list: seq<string>) {
    && name in before
    && after.Keys == before.Keys
    && after[name] == before[name].(participants := list)
    && forall other :: other in before && other != name ==> after[other] == before[other]
  }

  // ---------------------------------------------------------------------
  // The registry the server starts with
  // ---------------------------------------------------------------------

  function InitialActivities(): (a: Activities)
    ensures WellFormed(a)
  {
    map[
      "Chess Club" := Activity(
        "Learn strategies and compete in chess tournaments",
        "Fridays, 3:30 PM - 5:00 PM", 12,
        ["michael@mergington.edu", "daniel@mergington.edu"]),
      "Programming Class" := Activity(
        "Learn programming fundamentals and build software projects",
        "Tuesdays and Thursdays, 3:30 PM - 4:30 PM", 20,
        ["emma@mergington.edu", "sophia@mergington.edu"]),
      "Gym Class" := Activity(
        "Physical education and sports activities",
        "Mondays, Wednesdays, Fridays, 2:00 PM - 3:00 PM", 30,
        ["john@mergington.edu", "olivia@mergington.edu"]),
      "Soccer Team" := Activity(
        "Join the school soccer team and compete in matches",
        "Tuesdays and Thursdays, 4:00 PM - 5:30 PM", 22,
        ["liam@mergington.edu", "noah@mergington.edu"]),
      "Basketball Team" := Activity(
        "Practice and play basketball with the school team",
        "Wednesdays and Fridays, 3:30 PM - 5:00 PM", 15,
        ["ava@mergington.edu", "mia@mergington.edu"]),
      "Art Club" := Activity(
        "Explore your creativity through painting and drawing",
        "Thursdays, 3:30 PM - 5:00 PM", 15,
        ["amelia@mergington.edu", "harper@mergington.edu"]),
      "Drama Club" := Activity(
        "Act, direct, and produce plays and performances",
        "Mondays and Wednesdays, 4:00 PM - 5:30 PM", 20,
        ["ella@mergington.edu", "scarlett@mergington.edu"]),
      "Math Club" := Activity(
        "Solve challenging problems and participate in math competitions",
        "Tuesdays, 3:30 PM - 4:30 PM", 10,
        ["james@mergington.edu", "benjamin@mergington.edu"]),
      "Debate Team" := Activity(
        "Develop public speaking and argumentation skills",
        "Fridays, 4:00 PM - 5:30 PM", 12,
        ["charlotte@mergington.edu", "henry@mergington.edu"])
    ]
  }

  // ---------------------------------------------------------------------
  // Participant lists
  // ---------------------------------------------------------------------

  /** Position of the first occurrence of `x` in `s`. */
  function FirstIndex(s: seq<string>, x: string): (i: nat)
    requires x in s
    ensures i < |s| && s[i] == x && x !in s[..i]
  {
    if s[0] == x then 0 else 1 + FirstIndex(s[1..], x)
  }

  /** List removal of Python's `list.remove`, without its error: the first
      occurrence of `x` goes, everything else keeps its order. */
  function RemoveFirst(s: seq<string>, x: string): (r: seq<string>)
    ensures x !in s ==> r == s
    ensures x in s ==> r == s[..FirstIndex(s, x)] + s[FirstIndex(s, x) + 1..]
  {
    if s == [] then []
    else if s[0] == x then s[1..]
    else [s[0]] + RemoveFirst(s[1..], x)
  }

  /** Exactly one student fewer when the student was listed. */
  lemma {:induction false} RemoveFirstShrinks(s: seq<string>, x: string)
    ensures |RemoveFirst(s, x)| == if x in s then |s| - 1 else |s|
    ensures multiset(RemoveFirst(s, x)) == multiset(s) - multiset{x}
  {
    if x in s {
      var i := FirstIndex(s, x);
      assert s == s[..i] + [x] + s[i + 1..];
      assert multiset(s) == multiset(s[..i]) + multiset{x} + multiset(s[i + 1..]);
    } else {
      assert multiset(s)[x] == 0;
    }
  }

  lemma RemoveFirstKeepsNoDuplicates(s: seq<string>, x: string)
    requires NoDuplicates(s)
    ensures NoDuplicates(RemoveFirst(s, x))
    ensures x !in RemoveFirst(s, x)
  {
  }

  lemma AppendKeepsNoDuplicates(s: seq<string>, x: string)
    requires NoDuplicates(s) && x !in s
    ensures NoDuplicates(s + [x])
  {
  }

  /** Removing a student who was just appended gives the list back. */
  lemma RemoveFirstOfAppended(s: seq<string>, x: string)
    requires x !in s
    ensures RemoveFirst(s + [x], x) == s
  {
  }

  // ---------------------------------------------------------------------
  // The handlers as transition functions
  // ---------------------------------------------------------------------

  /** The `require_teacher` dependency: an absent or empty token header, or a
      token with no session, is refused with 403; otherwise the username
      stored for the token. */
  function RequireTeacher(sessions: Sessions, token: Option<string>): (r: Result<string>)
    ensures r.Ok? <==> token.Some? && token.value != "" && token.value in sessions
    ensures r.Ok? ==> r.value == sessions[token.value]
    ensures r.Err? ==> r.error == LoginRequired
  {
    if token.None? || token.value == "" || token.value !in sessions then Err(LoginRequired)
    else Ok(sessions[token.value])
  }

  /** `teacher_login`; `newToken` stands for the random token the server
      draws. */
  function Login(teachers: Teachers, sessions: Sessions, username: string, password: string, newToken: string)
    : (out: Step<LoginReply, Sessions>)
    ensures out.result.Ok? <==> username in teachers && teachers[username] == password
    ensures out.result.Err? ==> out.result.error == InvalidCredentials && out.state == sessions
    ensures out.result.Ok? ==>
      && out.result.value.token == newToken
      && out.result.value.username == username
      && out.state.Keys == sessions.Keys + {newToken}
      && out.state[newToken] == username
      && forall t :: t in sessions && t != newToken ==> out.state[t] == sessions[t]
  {
    if username !in teachers || teachers[username] != password then
      Step(Err(InvalidCredentials), sessions)
    else
      Step(Ok(LoginReply("Teacher login successful", newToken, username)), sessions[newToken := username])
  }

  /** `teacher_logout`: the session table afterwards. It never fails. */
  function Logout(sessions: Sessions, token: Option<string>): (r: Sessions)
    ensures forall t :: t in r <==> t in sessions && !(token == Some(t) && t != "")
    ensures forall t :: t in r ==> r[t] == sessions[t]
  {
    if token.Some? && token.value != "" && token.value in sessions then sessions - {token.value}
    else sessions
  }

  /** `signup_for_activity`: the teacher check, then 404, then 400, then the
      student is appended. The activity's `maxParticipants` is never read. */
  function Signup(activities: Activities, sessions: Sessions, name: string, email: string, token: Option<string>)
    : (out: Step<ChangeReply, Activities>)
    ensures RequireTeacher(sessions, token).Err? ==> out.result == Err(LoginRequired)
    ensures RequireTeacher(sessions, token).Ok? && name !in activities ==> out.result == Err(ActivityNotFound)
    ensures RequireTeacher(sessions, token).Ok? && name in activities && email in activities[name].participants
      ==> out.result == Err(AlreadySignedUp)
    ensures out.result.Ok? <==>
      RequireTeacher(sessions, token).Ok? && name in activities && email !in activities[name].participants
    ensures out.result.Err? ==> out.state == activities
    ensures out.result.Ok? ==>
      && OnlyListChanged(activities, out.state, name, activities[name].participants + [email])
      && out.result.value.updatedBy == sessions[token.value]
  {
    var teacher := RequireTeacher(sessions, token);
    if teacher.Err? then Step(Err(teacher.error), activities)
    else if name !in activities then Step(Err(ActivityNotFound), activities)
    else
      var activity := activities[name];
      if email in activity.participants then Step(Err(AlreadySignedUp), activities)
      else
        Step(Ok(ChangeReply("Signed up " + email + " for " + name, teacher.value)),
             activities[name := activity.(participants := activity.participants + [email])])
  }

  /** `unregister_from_activity`: the teacher check, then 404, then 400, then
      the first occurrence of the student is removed. */
  function Unregister(activities: Activities, sessions: Sessions, name: string, email: string, token: Option<string>)
    : (out: Step<ChangeReply, Activities>)
    ensures RequireTeacher(sessions, token).Err? ==> out.result == Err(LoginRequired)
    ensures RequireTeacher(sessions, token).Ok? && name !in activities ==> out.result == Err(ActivityNotFound)
    ensures RequireTeacher(sessions, token).Ok? && name in activities && email !in activities[name].participants
      ==> out.result == Err(NotSignedUp)
    ensures out.result.Ok? <==>
      RequireTeacher(sessions, token).Ok? && name in activities && email in activities[name].participants
    ensures out.result.Err? ==> out.state == activities
    ensures out.result.Ok? ==>
      && OnlyListChanged(activities, out.state, name, RemoveFirst(activities[name].participants, email))
      && |out.state[name].participants| == |activities[name].participants| - 1
      && out.result.value.updatedBy == sessions[token.value]
  {
    var teacher := RequireTeacher(sessions, token);
    if teacher.Err? then Step(Err(teacher.error), activities)
    else if name !in activities then Step(Err(ActivityNotFound), activities)
    else
      var activity := activities[name];
      if email !in activity.participants then Step(Err(NotSignedUp), activities)
      else
        Step(Ok(ChangeReply("Unregistered " + email + " from " + name, teacher.value)),
             activities[name := activity.(participants := RemoveFirst(activity.participants, email))])
  }

  // ---------------------------------------------------------------------
  // Properties of the handlers
  // ---------------------------------------------------------------------

  /** Logging out twice with the same token is logging out once. */
  lemma LogoutIdempotent(sessions: Sessions, token: Option<string>)
    ensures Logout(Logout(sessions, token), token) == Logout(sessions, token)
  {
  }

  /** A logout with the token a login just issued (fresh and non-empty)
      restores the session table as it was before the login. */
  lemma LogoutUndoesLogin(teachers: Teachers, sessions: Sessions, username: string, password: string, newToken: string)
    requires username in teachers && teachers[username] == password
    requires newToken != "" && newToken !in sessions
    ensures Logout(Login(teachers, sessions, username, password, newToken).state, Some(newToken)) == sessions
  {
  }

  /** A successful sign-up followed by the unregister of the same student
      gives the registry back. */
  lemma UnregisterUndoesSignup(activities: Activities, sessions: Sessions, name: string, email: string, token: Option<string>)
    requires Signup(activities, sessions, name, email, token).result.Ok?
    ensures var after := Signup(activities, sessions, name, email, token).state;
      && Unregister(after, sessions, name, email, token).result.Ok?
      && Unregister(after, sessions, name, email, token).state == activities
  {
    var before := activities[name].participants;
    RemoveFirstOfAppended(before, email);
    var after := Signup(activities, sessions, name, email, token).state;
    assert after[name].participants == before + [email];
    assert Unregister(after, sessions, name, email, token).state.Keys == activities.Keys;
  }

  /** Sign-up keeps every participant list free of duplicates. */
  lemma SignupKeepsWellFormed(activities: Activities, sessions: Sessions, name: string, email: string, token: Option<string>)
    requires WellFormed(activities)
    ensures WellFormed(Signup(activities, sessions, name, email, token).state)
  {
  }

  /** Unregister keeps every participant list free of duplicates, and the
      student is no longer listed in that activity. */
  lemma UnregisterKeepsWellFormed(activities: Activities, sessions: Sessions, name: string, email: string, token: Option<string>)
    requires WellFormed(activities)
    ensures WellFormed(Unregister(activities, sessions, name, email, token).state)
    ensures Unregister(activities, sessions, name, email, token).result.Ok? ==>
      email !in Unregister(activities, sessions, name, email, token).state[name].participants
  {
    var out := Unregister(activities, sessions, name, email, token);
    if out.result.Ok? {
      RemoveFirstKeepsNoDuplicates(activities[name].participants, email);
    }
  }

  /** The sign-up outcome does not depend on the capacity: two registries that
      differ only in an activity's `maxParticipants` answer alike. */
  lemma SignupIgnoresCapacity(activities: Activities, sessions: Sessions, name: string, email: string,
                              token: Option<string>, capacity: int)
    requires name in activities
    ensures var other := activities[name := activities[name].(maxParticipants := capacity)];
      Signup(other, sessions, name, email, token).result == Signup(activities, sessions, name, email, token).result
  {
  }

  // ---------------------------------------------------------------------
  // The server state, changed in place
  // ---------------------------------------------------------------------

  class Server {
    /** The teacher accounts, read once at start-up. */
    const teachers: Teachers
    var activities: Activities
    var sessions: Sessions

    ghost predicate Valid()
      reads this
    {
      WellFormed(activities)
    }

    constructor (teachers: Teachers)
      ensures Valid()
      ensures this.teachers == teachers
      ensures activities == InitialActivities() && sessions == map[]
    {
      this.teachers := teachers;
      activities := InitialActivities();
      sessions := map[];
    }

    /** POST /auth/login. */
    method TeacherLogin(username: string, password: string, newToken: string) returns (r: Result<LoginReply>)
      modifies this`sessions
      ensures Step(r, sessions) == Login(teachers, old(sessions), username, password, newToken)
    {
      if username !in teachers || teachers[username] != password {
        return Err(InvalidCredentials);
      }
      sessions := sessions[newToken := username];
      r := Ok(LoginReply("Teacher login successful", newToken, username));
    }

    /** POST /auth/logout. */
    method TeacherLogout(token: Option<string>) returns (message: string)
      modifies this`sessions
      ensures message == LoggedOutMessage
      ensures sessions == Logout(old(sessions), token)
    {
      if token.Some? && token.value != "" && token.value in sessions {
        sessions := sessions - {token.value};
      }
      message := LoggedOutMessage;
    }

    /** POST /activities/{name}/signup?email=... */
    method SignupForActivity(name: string, email: string, token: Option<string>) returns (r: Result<ChangeReply>)
      requires Valid()
      modifies this`activities
      ensures Valid()
      ensures Step(r, activities) == Signup(old(activities), sessions, name, email, token)
    {
      SignupKeepsWellFormed(activities, sessions, name, email, token);
      var teacher := RequireTeacher(sessions, token);
      if teacher.Err? {
        return Err(teacher.error);
      }
      if name !in activities {
        return Err(ActivityNotFound);
      }
      var activity := activities[name];
      if email in activity.participants {
        return Err(AlreadySignedUp);
      }
      activities := activities[name := activity.(participants := activity.participants + [email])];
      r := Ok(ChangeReply("Signed up " + email + " for " + name, teacher.value));
    }

    /** DELETE /activities/{name}/unregister?email=... */
    method UnregisterFromActivity(name: string, email: string, token: Option<string>) returns (r: Result<ChangeReply>)
      requires Valid()
      modifies this`activities
      ensures Valid()
      ensures Step(r, activities) == Unregister(old(activities), sessions, name, email, token)
    {
      UnregisterKeepsWellFormed(activities, sessions, name, email, token);
      var teacher := RequireTeacher(sessions, token);
      if teacher.Err? {
        return Err(teacher.error);
      }
      if name !in activities {
        return Err(ActivityNotFound);
      }
      var activity := activities[name];
      if email !in activity.participants {
        return Err(NotSignedUp);
      }
      activities := activities[name := activity.(participants := RemoveFirst(activity.participants, email))];
      r := Ok(ChangeReply("Unregistered " + email + " from " + name, teacher.value));
    }
  }
}
