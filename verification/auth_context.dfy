/** The session provider: the signed-in user, the "still restoring from
    storage" flag, and the three operations that change them. Each operation
    is one atomic transition from a `World` (provider state plus the one
    storage slot holding the persisted user) to an `Effect` (the new world,
    the requests sent and the error rethrown, if any). The outcomes of the
    storage calls and of the HTTP request are inputs. */
module AuthContext {
  import opened Wrappers
  import opened Errors
  import Api

  /** A user record as the backend returns it. */
  datatype User = User(id: string, name: string, email: string, avatar: string)

  /** The provider's `user` value. `NoUser` stands for the placeholder empty
      object the provider uses when nobody is signed in. */
  datatype SessionUser = NoUser | SignedIn(profile: User)

  datatype AuthState = AuthState(user: SessionUser, isLoadingUserStorageData: bool)

  /** The provider state together with the persisted-user storage slot. */
  datatype World = World(state: AuthState, stored: Option<User>)

  /** The result of one operation. */
  datatype Effect = Effect(world: World, requests: seq<Api.Request>, raised: Option<Error>)

  /** What `POST /sessions` gave back: a body that may or may not carry a
      user, or a rejection. */
  datatype SessionsResponse =
    | Responded(user: Option<User>)
    | RequestFailed(error: Error)

  /** The three phases of the session as screens observe them. */
  datatype Phase = Loading | LoggedOut | LoggedIn

  function PhaseOf(s: AuthState): Phase
  {
    if s.isLoadingUserStorageData then Loading
    else if s.user.NoUser? then LoggedOut
    else LoggedIn
  }

  /** Invariant of every reachable world: a signed-in user is also the user
      held in storage, so a restart restores the same session. */
  predicate StorageBacksUser(w: World)
  {
    w.state.user.SignedIn? ==> w.stored == Some(w.state.user.profile)
  }

  /** The provider when it mounts: no user and the loading flag raised. The
      storage slot holds whatever a previous run left there. */
  function Mount(stored: Option<User>): (w: World)
    ensures PhaseOf(w.state) == Loading
    ensures w.state.user == NoUser && w.state.isLoadingUserStorageData
    ensures w.stored == stored
    ensures StorageBacksUser(w)
  {
    World(AuthState(NoUser, true), stored)
  }

  /** `loadUserData`: read the persisted user and adopt it when there is
      one; whether the read succeeds or fails, lower the loading flag; a
      failed read is rethrown. */
  function LoadUserData(w: World, read: Outcome<Error>): (e: Effect)
    ensures !e.world.state.isLoadingUserStorageData
    ensures e.world.stored == w.stored
    ensures e.requests == []
    ensures read.Pass? && w.stored.Some? ==> e.world.state.user == SignedIn(w.stored.value)
    ensures read.Pass? && w.stored.None? ==> e.world.state.user == w.state.user
    ensures read.Fail? ==> e.world.state.user == w.state.user && e.raised == Some(read.error)
    ensures read.Pass? ==> e.raised == None
  {
    var user := if read.Pass? && w.stored.Some? then SignedIn(w.stored.value) else w.state.user;
    var raised := if read.Fail? then Some(read.error) else None;
    Effect(World(AuthState(user, false), w.stored), [], raised)
  }

  /** `signIn`: post the credentials; when the body carries a user, make it
      the provider's user and persist it; a failed request is rethrown
      unchanged. The loading flag is never touched. */
  function SignIn(w: World, email: string, password: string, response: SessionsResponse): (e: Effect)
    ensures e.requests == [Api.PostSessions(email, password)]
    ensures e.world.state.isLoadingUserStorageData == w.state.isLoadingUserStorageData
    ensures response.Responded? && response.user.Some? ==>
              && e.world.state.user == SignedIn(response.user.value)
              && e.world.stored == Some(response.user.value)
              && e.raised == None
    ensures response.Responded? && response.user.None? ==> e.world == w && e.raised == None
    ensures response.RequestFailed? ==> e.world == w && e.raised == Some(response.error)
  {
    var requests := [Api.PostSessions(email, password)];
    match response
    case RequestFailed(error) => Effect(w, requests, Some(error))
    case Responded(None) => Effect(w, requests, None)
    case Responded(Some(u)) =>
      Effect(World(w.state.(user := SignedIn(u)), Some(u)), requests, None)
  }

  /** The first half of `signOut`, up to the awaited storage removal: the
      loading flag is raised and the user cleared while storage still holds
      whatever it held. */
  function SignOutPrelude(w: World): (mid: World)
    ensures mid.state.user == NoUser
    ensures mid.state.isLoadingUserStorageData
    ensures mid.stored == w.stored
  {
    World(AuthState(NoUser, true), w.stored)
  }

  /** `signOut`: after the prelude, remove the persisted user; whatever the
      removal does, lower the loading flag; a failed removal is rethrown. The
      storage module is not part of this model: a failed removal is assumed
      to leave the slot as it was. */
  function SignOut(w: World, removal: Outcome<Error>): (e: Effect)
    ensures PhaseOf(e.world.state) == LoggedOut
    ensures e.world.state == AuthState(NoUser, false)
    ensures e.requests == []
    ensures removal.Pass? ==> e.world.stored == None && e.raised == None
    ensures removal.Fail? ==> e.world.stored == w.stored && e.raised == Some(removal.error)
  {
    var mid := SignOutPrelude(w);
    var stored := if removal.Pass? then None else mid.stored;
    var raised := if removal.Fail? then Some(removal.error) else None;
    Effect(World(mid.state.(isLoadingUserStorageData := false), stored), [], raised)
  }

  /** One call into the provider, with the outcomes of its external steps. */
  datatype Event =
    | Load(read: Outcome<Error>)
    | SignInAttempt(email: string, password: string, response: SessionsResponse)
    | SignOutAttempt(removal: Outcome<Error>)

  function Step(w: World, ev: Event): Effect
  {
    match ev
    case Load(read) => LoadUserData(w, read)
    case SignInAttempt(email, password, response) => SignIn(w, email, password, response)
    case SignOutAttempt(removal) => SignOut(w, removal)
  }

  /** The world after a sequence of completed calls. A rethrown error is
      reported to that call's caller and does not stop later calls. */
  function Run(w: World, events: seq<Event>): World
    decreases |events|
  {
    if events == [] then w else Run(Step(w, events[0]).world, events[1..])
  }

  /** Every single call keeps the storage-backs-user invariant. */
  lemma StepKeepsStorageBackingUser(w: World, ev: Event)
    requires StorageBacksUser(w)
    ensures StorageBacksUser(Step(w, ev).world)
  {
  }

  /** Every sequence of calls keeps it. */
  lemma {:induction false} RunKeepsStorageBackingUser(w: World, events: seq<Event>)
    requires StorageBacksUser(w)
    ensures StorageBacksUser(Run(w, events))
    decreases |events|
  {
    if events != [] {
      StepKeepsStorageBackingUser(w, events[0]);
      RunKeepsStorageBackingUser(Step(w, events[0]).world, events[1..]);
    }
  }

  /** From mount on, whatever calls happen, a signed-in user is the
      persisted user. */
  lemma ReachableWorldsAreBackedByStorage(stored: Option<User>, events: seq<Event>)
    ensures StorageBacksUser(Run(Mount(stored), events))
  {
    RunKeepsStorageBackingUser(Mount(stored), events);
  }

  /** Between completed calls the phase moves along the session state
      machine's edges only: a completed load or sign-out ends outside
      `Loading`, and no completed call ends in `Loading` when it started
      outside it; a sign-in moves `LoggedOut` to `LoggedIn` when the response
      carries a user; a sign-out moves anything to `LoggedOut`. While a
      sign-out's storage removal is in flight the flag is up again
      (`SignOutPrelude`); these statements are about the state once each
      call has completed. */
  lemma StepFollowsPhaseMachine(w: World, ev: Event)
    ensures var p, q := PhaseOf(w.state), PhaseOf(Step(w, ev).world.state);
            && (p != Loading ==> q != Loading)
            && (ev.Load? ==> q != Loading)
            && (ev.Load? && q == LoggedIn <==>
                  ev.Load? && ((ev.read.Pass? && w.stored.Some?) || w.state.user.SignedIn?))
            && (ev.SignInAttempt? && p == Loading ==> q == Loading)
            && (ev.SignInAttempt? && p == LoggedOut ==>
                  (q == LoggedIn <==> ev.response.Responded? && ev.response.user.Some?))
            && (ev.SignInAttempt? && p == LoggedIn ==> q == LoggedIn)
            && (ev.SignOutAttempt? ==> q == LoggedOut)
  {
  }

  /** Once the loading flag is down, it is down again after every completed
      call of any sequence. A sign-out raises it only while its removal is in
      flight (`SignOutPrelude`). */
  lemma {:induction false} RunNeverReturnsToLoading(w: World, events: seq<Event>)
    requires !w.state.isLoadingUserStorageData
    ensures PhaseOf(Run(w, events).state) != Loading
    decreases |events|
  {
    if events != [] {
      StepFollowsPhaseMachine(w, events[0]);
      RunNeverReturnsToLoading(Step(w, events[0]).world, events[1..]);
    }
  }

  /** A sequence of calls that contains a load or a sign-out ends outside
      `Loading`, whether each storage call succeeded or failed. */
  lemma {:induction false} RunLeavesLoading(w: World, events: seq<Event>, i: nat)
    requires i < |events| && !events[i].SignInAttempt?
    ensures PhaseOf(Run(w, events).state) != Loading
    decreases |events|
  {
    var next := Step(w, events[0]).world;
    if i == 0 {
      RunNeverReturnsToLoading(next, events[1..]);
    } else {
      RunLeavesLoading(next, events[1..], i - 1);
    }
  }

  /** Signing out twice ends where signing out once does, and a second
      successful removal raises nothing. */
  lemma SignOutIdempotent(w: World, first: Outcome<Error>, second: Outcome<Error>)
    ensures var once := SignOut(w, first).world;
            var twice := SignOut(once, second).world;
            && twice.state == once.state
            && (second.Fail? ==> twice == once)
            && (first.Pass? ==> twice == once)
            && (second.Pass? ==> SignOut(once, second).raised == None)
  {
  }

  /** A restart (remount and load) after a sign-out whose storage removal
      succeeded finds nobody signed in. */
  lemma RestartAfterSignOutIsLoggedOut(w: World)
    ensures var out := SignOut(w, Pass).world;
            LoadUserData(Mount(out.stored), Pass).world.state == AuthState(NoUser, false)
  {
  }

  /** Under the assumption that a failed removal leaves the slot as it was,
      a restart after such a sign-out restores the user that was signed in:
      only the in-memory state was cleared. */
  lemma RestartAfterFailedSignOutRestoresUser(w: World, e: Error)
    requires StorageBacksUser(w) && w.state.user.SignedIn?
    ensures var out := SignOut(w, Fail(e)).world;
            && out.state.user == NoUser
            && LoadUserData(Mount(out.stored), Pass).world.state == AuthState(w.state.user, false)
  {
  }

  /** A restart in a reachable world, with a successful read, restores
      exactly the signed-in user, or nobody when nobody was signed in and
      storage is empty. */
  lemma RestartRestoresSession(w: World)
    requires StorageBacksUser(w)
    ensures var back := LoadUserData(Mount(w.stored), Pass).world;
            && (w.state.user.SignedIn? ==> back.state.user == w.state.user)
            && (w.stored.None? ==> back.state.user == NoUser)
  {
  }
}
