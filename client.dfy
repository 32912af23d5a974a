/** The browser client of the activity sign-up system: the teacher session
    (a token and a username, mirrored to two persisted keys), the handlers for
    login, logout, sign-up and unregister, and the rendering of the fetched
    activities into a list of cards and a selector.

    The server's replies are inputs of the handlers; what a handler sends is
    part of what it returns. The session is in one of two states: logged in
    when the token is non-empty, logged out otherwise. */
module ActivityClient {
  import opened Wrappers
  import Registry

  // ---------------------------------------------------------------------
  // Session values
  // ---------------------------------------------------------------------

  type Headers = map<string, string>

  const TokenHeader := "X-Teacher-Token"

  /** The persisted keys "teacherToken" and "teacherUsername"; `None` is a
      key that is not set. */
  datatype Storage = Storage(token: Option<string>, username: Option<string>)

  const EmptyStorage := Storage(None, None)

  /** What a persisted key gives at page load: its value, or "" when unset. */
  function Recall(stored: Option<string>): string {
    stored.GetOr("")
  }

  /** Teacher mode. */
  function IsTeacherLoggedIn(token: string): (b: bool)
    ensures b <==> token != ""
  {
    |token| > 0
  }

  /** The headers a mutating request carries. */
  function AuthHeaders(token: string): (h: Headers)
    ensures h == map[] <==> !IsTeacherLoggedIn(token)
    ensures IsTeacherLoggedIn(token) ==> h.Keys == {TokenHeader} && h[TokenHeader] == token
  {
    if token != "" then
      var h := map[TokenHeader := token];
      assert TokenHeader in h;
      h
    else map[]
  }

  /** The token header as the server reads it. */
  function HeaderToken(h: Headers): Option<string> {
    if TokenHeader in h then Some(h[TokenHeader]) else None
  }

  /** A logged-out client's request is refused by the server's teacher check;
      a logged-in client's request passes it exactly when the server holds a
      session for that token, and then acts for that session's teacher. */
  lemma ServerReadsClientSession(sessions: Registry.Sessions, token: string)
    ensures !IsTeacherLoggedIn(token) ==>
      Registry.RequireTeacher(sessions, HeaderToken(AuthHeaders(token))) == Registry.Err(Registry.LoginRequired)
    ensures IsTeacherLoggedIn(token) ==>
      (Registry.RequireTeacher(sessions, HeaderToken(AuthHeaders(token))).Ok? <==> token in sessions)
    ensures IsTeacherLoggedIn(token) && token in sessions ==>
      Registry.RequireTeacher(sessions, HeaderToken(AuthHeaders(token))).value == sessions[token]
  {
  }

  // ---------------------------------------------------------------------
  // Text rules
  // ---------------------------------------------------------------------

  /** The characters JavaScript's `String.prototype.trim` removes: the
      ECMAScript WhiteSpace and LineTerminator code points. */
  const Whitespace: set<char> := {
    '\t', '\n', '\U{000B}', '\U{000C}', '\r', ' ', '\U{00A0}', '\U{1680}',
    '\U{2000}', '\U{2001}', '\U{2002}', '\U{2003}', '\U{2004}', '\U{2005}',
    '\U{2006}', '\U{2007}', '\U{2008}', '\U{2009}', '\U{200A}',
    '\U{2028}', '\U{2029}', '\U{202F}', '\U{205F}', '\U{3000}', '\U{FEFF}'
  }

  predicate IsWhitespace(c: char) {
    c in Whitespace
  }

  function TrimStart(s: string): (r: string)
    ensures |r| <= |s| && r == s[|s| - |r|..]
    ensures forall k :: 0 <= k < |s| - |r| ==> IsWhitespace(s[k])
    ensures r != "" ==> !IsWhitespace(r[0])
  {
    if s != "" && IsWhitespace(s[0]) then TrimStart(s[1..]) else s
  }

  function TrimEnd(s: string): (r: string)
    ensures |r| <= |s| && r == s[..|r|]
    ensures forall k :: |r| <= k < |s| ==> IsWhitespace(s[k])
    ensures r != "" ==> !IsWhitespace(r[|r| - 1])
  {
    if s != "" && IsWhitespace(s[|s| - 1]) then TrimEnd(s[..|s| - 1]) else s
  }

  /** `r` is the slice of `s` that starts at `a`, and everything of `s`
      before and after that slice is whitespace. */
  predicate CutAt(s: string, r: string, a: nat) {
    && a + |r| <= |s|
    && r == s[a..a + |r|]
    && (forall k :: 0 <= k < a ==> IsWhitespace(s[k]))
    && (forall k :: a + |r| <= k < |s| ==> IsWhitespace(s[k]))
  }

  /** Trimming the start and then the end cuts a slice out of the input
      with only whitespace around it. */
  lemma TrimmedIsCut(s: string)
    ensures CutAt(s, TrimEnd(TrimStart(s)), |s| - |TrimStart(s)|)
  {
  }

  /** `trim()`: the input without leading and trailing whitespace. */
  function Trim(s: string): (r: string)
    ensures exists a: nat :: CutAt(s, r, a)
    ensures r == "" <==> forall k :: 0 <= k < |s| ==> IsWhitespace(s[k])
    ensures r != "" ==> !IsWhitespace(r[0]) && !IsWhitespace(r[|r| - 1])
    ensures forall k :: 0 <= k < |s| && !IsWhitespace(s[k]) ==> r != ""
  {
    TrimmedIsCut(s);
    var front := TrimStart(s);
    var r := TrimEnd(front);
    // A non-empty `front` starts with a non-whitespace character, which
    // `TrimEnd` keeps.
    assert r == "" ==> front == "";
    r
  }

  /** JavaScript's `detail || fallback` on a reply field that may be
      missing. */
  function OrElse(detail: Option<string>, fallback: string): (r: string)
    ensures r == fallback || (detail == Some(r) && r != "")
    ensures detail.Some? && detail.value != "" ==> r == detail.value
  {
    if detail.Some? && detail.value != "" then detail.value else fallback
  }

  // ---------------------------------------------------------------------
  // Handler inputs and outputs
  // ---------------------------------------------------------------------

  datatype Kind = Success | Error | Info

  /** The transient message shown to the user. */
  datatype Banner = Banner(text: string, kind: Kind)

  const MissingCredentialsText := "Please enter username and password."
  const LoginFailedText := "Login failed."
  const LoginThrewText := "Failed to login. Please try again."
  const LoggedOutText := "Logged out."
  const LoginRequiredText := "Teacher login is required."
  const ForbiddenText := "Teacher login required."
  const GenericErrorText := "An error occurred"
  const SignupThrewText := "Failed to sign up. Please try again."
  const UnregisterThrewText := "Failed to unregister. Please try again."

  /** A request sent to the server. */
  datatype Request =
    | LoginRequest(username: string, password: string)
    | LogoutRequest(headers: Headers)
    | SignupRequest(activity: string, email: string, headers: Headers)
    | UnregisterRequest(activity: string, email: string, headers: Headers)

  /** What a handler does besides changing the session: the request it sends
      (if any), the banner it shows, and whether it fetches the list again. */
  datatype Effect = Effect(request: Option<Request>, banner: Banner, refresh: bool)

  /** The reply to a login request, or the failure to get or parse one.
      `LoginAccepted` is a reply whose status is ok (200 to 299) and
      `LoginRejected` any other reply; the client reads no more of the
      status than that. */
  datatype LoginResponse =
    | LoginAccepted(token: string, username: string, message: string)
    | LoginRejected(detail: Option<string>)
    | LoginThrown

  /** The logout call's outcome, which the client ignores. */
  datatype LogoutOutcome = LogoutAnswered | LogoutThrown

  /** The reply to a sign-up or unregister request, or the failure to get or
      parse one. `message` is the reply's `message` field. */
  datatype MutationResponse =
    | Answered(status: int, message: string, detail: Option<string>)
    | Thrown

  /** `response.ok`. */
  predicate IsOk(status: int) {
    200 <= status <= 299
  }

  /** How the sign-up and unregister handlers react to a reply. */
  datatype Reaction = Reaction(clearSession: bool, banner: Banner, refresh: bool)

  function React(response: MutationResponse, threwText: string): (x: Reaction)
    ensures x.clearSession <==> response.Answered? && response.status == 403
    ensures x.refresh <==> response.Answered? && IsOk(response.status)
    ensures x.banner.kind == Success <==> x.refresh
    ensures x.clearSession ==> x.banner == Banner(OrElse(response.detail, ForbiddenText), Error)
    ensures x.refresh ==> x.banner.text == response.message
    ensures response.Answered? && response.status != 403 && !IsOk(response.status) ==>
      x.banner == Banner(OrElse(response.detail, GenericErrorText), Error)
    ensures response.Thrown? ==> x.banner == Banner(threwText, Error)
  {
    match response
    case Thrown => Reaction(false, Banner(threwText, Error), false)
    case Answered(status, message, detail) =>
      if status == 403 then Reaction(true, Banner(OrElse(detail, ForbiddenText), Error), false)
      else if IsOk(status) then Reaction(false, Banner(message, Success), true)
      else Reaction(false, Banner(OrElse(detail, GenericErrorText), Error), false)
  }

  // ---------------------------------------------------------------------
  // Rendering the activities
  // ---------------------------------------------------------------------

  /** One participant line; `deletable` is the remove control, which targets
      this email in the card's activity. */
  datatype Row = Row(email: string, deletable: bool)

  datatype Card = Card(name: string, description: string, schedule: string, spotsLeft: int, rows: seq<Row>)

  datatype SelectOption = SelectOption(value: string, text: string)

  const Placeholder := SelectOption("", "-- Select an activity --")

  /** The activity list: the loading text of the page, the cards, or the
      error text after a failed fetch. */
  datatype ListView = Loading | Cards(cards: seq<Card>) | LoadFailed

  /** GET /activities: the entries in the order the reply lists them, or the
      failure to get or parse it. */
  datatype FetchResponse = Fetched(entries: seq<(string, Registry.Activity)>) | FetchThrown

  /** Free places; negative when the server let more students in than the
      capacity, which it never checks. */
  function SpotsLeft(a: Registry.Activity): int {
    a.maxParticipants - |a.participants|
  }

  /** One row per participant, in order, with a remove control exactly in
      teacher mode. */
  function Rows(participants: seq<string>, teacherMode: bool): (r: seq<Row>)
    ensures |r| == |participants|
    ensures forall i :: 0 <= i < |r| ==> r[i].email == participants[i] && r[i].deletable == teacherMode
  {
    seq(|participants|, i requires 0 <= i < |participants| => Row(participants[i], teacherMode))
  }

  function CardFor(name: string, a: Registry.Activity, teacherMode: bool): (c: Card)
    ensures c.name == name && c.spotsLeft + |a.participants| == a.maxParticipants
    ensures |c.rows| == |a.participants|
    ensures forall i :: 0 <= i < |c.rows| ==> c.rows[i].email == a.participants[i]
    ensures forall row :: row in c.rows ==> row.deletable == teacherMode
  {
    Card(name, a.description, a.schedule, SpotsLeft(a), Rows(a.participants, teacherMode))
  }

  /** The cards of a fetched reply: one per activity, in order. */
  function CardsFor(entries: seq<(string, Registry.Activity)>, teacherMode: bool): (cards: seq<Card>)
    ensures |cards| == |entries|
    ensures forall i :: 0 <= i < |entries| ==> cards[i] == CardFor(entries[i].0, entries[i].1, teacherMode)
  {
    if entries == [] then []
    else
      var last := entries[|entries| - 1];
      CardsFor(entries[..|entries| - 1], teacherMode) + [CardFor(last.0, last.1, teacherMode)]
  }

  /** The selector: the placeholder, then one option per activity, in order. */
  function OptionsFor(entries: seq<(string, Registry.Activity)>): (options: seq<SelectOption>)
    ensures |options| == |entries| + 1
    ensures options[0] == Placeholder
    ensures forall i :: 0 <= i < |entries| ==> options[i + 1] == SelectOption(entries[i].0, entries[i].0)
  {
    if entries == [] then [Placeholder]
    else
      var last := entries[|entries| - 1];
      OptionsFor(entries[..|entries| - 1]) + [SelectOption(last.0, last.0)]
  }

  /** Remove controls are shown in teacher mode only, and then on every row. */
  lemma RemoveControlsOnlyInTeacherMode(entries: seq<(string, Registry.Activity)>, teacherMode: bool, i: nat, j: nat)
    requires i < |entries| && j < |entries[i].1.participants|
    ensures j < |CardsFor(entries, teacherMode)[i].rows|
    ensures CardsFor(entries, teacherMode)[i].rows[j].deletable <==> teacherMode
  {
  }

  /** A successful sign-up takes one spot and a successful unregister frees
      one; nothing else changes the count shown. */
  lemma SpotsFollowChanges(activities: Registry.Activities, sessions: Registry.Sessions, name: string,
                           email: string, token: Option<string>)
    ensures Registry.Signup(activities, sessions, name, email, token).result.Ok? ==>
      SpotsLeft(Registry.Signup(activities, sessions, name, email, token).state[name]) == SpotsLeft(activities[name]) - 1
    ensures Registry.Unregister(activities, sessions, name, email, token).result.Ok? ==>
      SpotsLeft(Registry.Unregister(activities, sessions, name, email, token).state[name]) == SpotsLeft(activities[name]) + 1
  {
  }

  /** Because the server never checks the capacity, a full activity still
      accepts a student, and the client then shows a negative count. */
  lemma FullActivityStillAcceptsSignup(activities: Registry.Activities, sessions: Registry.Sessions, name: string,
                                       email: string, token: Option<string>)
    requires Registry.RequireTeacher(sessions, token).Ok?
    requires name in activities && email !in activities[name].participants
    requires SpotsLeft(activities[name]) <= 0
    ensures Registry.Signup(activities, sessions, name, email, token).result.Ok?
    ensures SpotsLeft(Registry.Signup(activities, sessions, name, email, token).state[name]) < 0
  {
    SpotsFollowChanges(activities, sessions, name, email, token);
  }

  // ---------------------------------------------------------------------
  // The client state, changed in place
  // ---------------------------------------------------------------------

  class Client {
    var token: string
    var username: string
    var storage: Storage
    var list: ListView
    var options: seq<SelectOption>

    /** The session in memory is the one a page reload reads back. */
    ghost predicate Valid()
      reads this
    {
      token == Recall(storage.token) && username == Recall(storage.username)
    }

    /** Page load: the session comes from the persisted keys. */
    constructor (stored: Storage)
      ensures Valid() && storage == stored
      ensures token == Recall(stored.token) && username == Recall(stored.username)
      ensures list == Loading && options == []
    {
      token := Recall(stored.token);
      username := Recall(stored.username);
      storage := stored;
      list := Loading;
      options := [];
    }

    method ClearTeacherSession()
      modifies this`token, this`username, this`storage
      ensures token == "" && username == "" && storage == EmptyStorage
      ensures Valid() && !IsTeacherLoggedIn(token)
    {
      token := "";
      username := "";
      storage := storage.(token := None);
      storage := storage.(username := None);
    }

    method HandleTeacherLogin(usernameInput: string, password: string, response: LoginResponse) returns (e: Effect)
      requires Valid()
      modifies this`token, this`username, this`storage
      ensures Valid()
      ensures Trim(usernameInput) == "" || password == "" ==>
        e == Effect(None, Banner(MissingCredentialsText, Error), false)
      ensures Trim(usernameInput) != "" && password != "" ==>
        e.request == Some(LoginRequest(Trim(usernameInput), password))
      ensures Trim(usernameInput) != "" && password != "" && response.LoginAccepted? ==>
        && token == response.token && username == response.username
        && storage == Storage(Some(response.token), Some(response.username))
        && e.banner == Banner(response.message, Success) && e.refresh
      ensures Trim(usernameInput) != "" && password != "" && response.LoginRejected? ==>
        e.banner == Banner(OrElse(response.detail, LoginFailedText), Error)
      ensures Trim(usernameInput) != "" && password != "" && response.LoginThrown? ==>
        e.banner == Banner(LoginThrewText, Error)
      ensures !(Trim(usernameInput) != "" && password != "" && response.LoginAccepted?) ==>
        token == old(token) && username == old(username) && storage == old(storage) && !e.refresh
    {
      var name := Trim(usernameInput);
      if name == "" || password == "" {
        return Effect(None, Banner(MissingCredentialsText, Error), false);
      }
      var request := Some(LoginRequest(name, password));
      match response
      case LoginThrown =>
        e := Effect(request, Banner(LoginThrewText, Error), false);
      case LoginRejected(detail) =>
        e := Effect(request, Banner(OrElse(detail, LoginFailedText), Error), false);
      case LoginAccepted(newToken, newUsername, message) =>
        token := newToken;
        username := newUsername;
        storage := storage.(token := Some(token));
        storage := storage.(username := Some(username));
        e := Effect(request, Banner(message, Success), true);
    }

    /** The logout call is sent whatever the session, and the session is
        cleared whatever the call's outcome. */
    method HandleTeacherLogout(outcome: LogoutOutcome) returns (e: Effect)
      modifies this`token, this`username, this`storage
      ensures e == Effect(Some(LogoutRequest(AuthHeaders(old(token)))), Banner(LoggedOutText, Info), true)
      ensures token == "" && username == "" && storage == EmptyStorage
      ensures Valid() && !IsTeacherLoggedIn(token)
    {
      var request := LogoutRequest(AuthHeaders(token));
      ClearTeacherSession();
      e := Effect(Some(request), Banner(LoggedOutText, Info), true);
    }

    /** Fetches the list again; the session decides the remove controls. */
    method FetchActivities(response: FetchResponse)
      modifies this`list, this`options
      ensures response.FetchThrown? ==> list == LoadFailed && options == old(options)
      ensures response.Fetched? ==>
        && list == Cards(CardsFor(response.entries, IsTeacherLoggedIn(token)))
        && options == OptionsFor(response.entries)
    {
      if response.FetchThrown? {
        list := LoadFailed;
        return;
      }
      var entries := response.entries;
      var teacherMode := IsTeacherLoggedIn(token);
      list := Cards([]);
      options := [Placeholder];
      var i := 0;
      while i < |entries|
        invariant 0 <= i <= |entries|
        invariant list == Cards(CardsFor(entries[..i], teacherMode))
        invariant options == OptionsFor(entries[..i])
      {
        var (name, details) := entries[i];
        assert entries[..i + 1][..i] == entries[..i];
        list := Cards(list.cards + [CardFor(name, details, teacherMode)]);
        options := options + [SelectOption(name, name)];
        i := i + 1;
      }
      assert entries[..i] == entries;
    }

    /** A remove control was used. Logged out (a control left from an earlier
        rendering), nothing is sent. */
    method HandleUnregister(activity: string, email: string, response: MutationResponse) returns (e: Effect)
      requires Valid()
      modifies this`token, this`username, this`storage
      ensures Valid()
      ensures !IsTeacherLoggedIn(old(token)) ==>
        e == Effect(None, Banner(LoginRequiredText, Error), false)
      ensures IsTeacherLoggedIn(old(token)) ==>
        && e.request == Some(UnregisterRequest(activity, email, AuthHeaders(old(token))))
        && e.banner == React(response, UnregisterThrewText).banner
        && e.refresh == React(response, UnregisterThrewText).refresh
      ensures IsTeacherLoggedIn(old(token)) && response.Answered? && response.status == 403 ==>
        token == "" && username == "" && storage == EmptyStorage
      ensures !(IsTeacherLoggedIn(old(token)) && response.Answered? && response.status == 403) ==>
        token == old(token) && username == old(username) && storage == old(storage)
    {
      if !IsTeacherLoggedIn(token) {
        return Effect(None, Banner(LoginRequiredText, Error), false);
      }
      var request := UnregisterRequest(activity, email, AuthHeaders(token));
      var reaction := React(response, UnregisterThrewText);
      if reaction.clearSession {
        ClearTeacherSession();
      }
      e := Effect(Some(request), reaction.banner, reaction.refresh);
    }

    /** The sign-up form was submitted. */
    method HandleSignup(activity: string, email: string, response: MutationResponse) returns (e: Effect)
      requires Valid()
      modifies this`token, this`username, this`storage
      ensures Valid()
      ensures !IsTeacherLoggedIn(old(token)) ==>
        e == Effect(None, Banner(LoginRequiredText, Error), false)
      ensures IsTeacherLoggedIn(old(token)) ==>
        && e.request == Some(SignupRequest(activity, email, AuthHeaders(old(token))))
        && e.banner == React(response, SignupThrewText).banner
        && e.refresh == React(response, SignupThrewText).refresh
      ensures IsTeacherLoggedIn(old(token)) && response.Answered? && response.status == 403 ==>
        token == "" && username == "" && storage == EmptyStorage
      ensures !(IsTeacherLoggedIn(old(token)) && response.Answered? && response.status == 403) ==>
        token == old(token) && username == old(username) && storage == old(storage)
    {
      if !IsTeacherLoggedIn(token) {
        return Effect(None, Banner(LoginRequiredText, Error), false);
      }
      var request := SignupRequest(activity, email, AuthHeaders(token));
      var reaction := React(response, SignupThrewText);
      if reaction.clearSession {
        ClearTeacherSession();
      }
      e := Effect(Some(request), reaction.banner, reaction.refresh);
    }
  }
}
