/** The attempt counter and the lock of AuthService.login. Users are rows by email; every service call is one step. */
module LoginLockout {
  import opened Wrappers

  type Email = string

  datatype User = User(isDeleted: bool, isVerified: bool, twoFactorEnabled: bool,
                       loginAttempts: nat, lockedUntil: Option<int>)

  type Users = map<Email, User>

  datatype Outcome = InvalidCredentials | AccountLocked | TooManyAttempts | NotVerified | TwoFactorRequired | LoggedIn

  const MAX_LOGIN_ATTEMPTS := 5
  const LOCKOUT_MS := 15 * 60 * 1000

  /**
   A login reads the clock when it looks at the lock and, after comparing the password, when it sets one. The other
   calls write the columns that login reads; registration, verification, 2FA setup and deletion are `Flags`.
   */
  datatype Call =
    | Login(email: Email, checkedAt: int, countedAt: int, isMatch: bool)
    | ResetPassword(email: Email)
    | Flags(email: Email, isDeleted: bool, isVerified: bool, twoFactorEnabled: bool)

  predicate IsLocked(u: User, now: int) {
    u.lockedUntil.Some? && u.lockedUntil.value > now
  }

  /** The password is compared, and a wrong one is counted. */
  predicate Compares(u: User, checkedAt: int) {
    !u.isDeleted && !IsLocked(u, checkedAt)
  }

  function LoginUser(u: User, checkedAt: int, countedAt: int, isMatch: bool): (User, Outcome) {
    if u.isDeleted then (u, InvalidCredentials)
    else if IsLocked(u, checkedAt) then (u, AccountLocked)
    else if !isMatch then
      var newAttempts := u.loginAttempts + 1;
      var lockedUntil := if newAttempts >= MAX_LOGIN_ATTEMPTS then Some(countedAt + LOCKOUT_MS) else None;
      (u.(loginAttempts := newAttempts, lockedUntil := lockedUntil),
       if lockedUntil.Some? then TooManyAttempts else InvalidCredentials)
    else if !u.isVerified then (u, NotVerified)
    else (u.(loginAttempts := 0, lockedUntil := None), if u.twoFactorEnabled then TwoFactorRequired else LoggedIn)
  }

  function UserStep(u: User, c: Call): User {
    match c
    case Login(_, checkedAt, countedAt, isMatch) => LoginUser(u, checkedAt, countedAt, isMatch).0
    case ResetPassword(_) => u.(loginAttempts := 0, lockedUntil := None)
    case Flags(_, isDeleted, isVerified, twoFactorEnabled) =>
      u.(isDeleted := isDeleted, isVerified := isVerified, twoFactorEnabled := twoFactorEnabled)
  }

  /** A call touches the row of its email, which `Flags` creates if need be. */
  function Step(t: Users, c: Call): Users {
    if c.email in t then t[c.email := UserStep(t[c.email], c)]
    else if c.Flags? then t[c.email := UserStep(User(false, false, false, 0, None), c)]
    else t
  }

  function Run(t: Users, calls: seq<Call>): Users {
    if calls == [] then t else Step(Run(t, calls[..|calls| - 1]), calls[|calls| - 1])
  }

  /** Clock readings do not go back: not inside a login and not from one login to a later one. */
  ghost predicate Monotone(calls: seq<Call>) {
    && (forall k :: 0 <= k < |calls| && calls[k].Login? ==> calls[k].checkedAt <= calls[k].countedAt)
    && (forall j, k :: 0 <= j < k < |calls| && calls[j].Login? && calls[k].Login? ==>
         calls[j].countedAt <= calls[k].checkedAt)
  }

  // ---------------------------------------------------------------- the lock belongs to the counter

  ghost predicate UserInv(u: User) {
    u.loginAttempts >= MAX_LOGIN_ATTEMPTS <==> u.lockedUntil.Some?
  }

  ghost predicate Inv(t: Users) {
    forall e :: e in t ==> UserInv(t[e])
  }

  lemma StepKeepsInv(t: Users, c: Call)
    requires Inv(t)
    ensures Inv(Step(t, c)) && t.Keys <= Step(t, c).Keys
  {
  }

  /** Over every run a lock is set exactly while the counter is at the limit or above. */
  lemma {:induction false} LockFollowsCounter(t: Users, calls: seq<Call>)
    requires Inv(t)
    ensures Inv(Run(t, calls)) && t.Keys <= Run(t, calls).Keys
  {
    hide Inv, Step;
    if calls != [] {
      LockFollowsCounter(t, calls[..|calls| - 1]);
      StepKeepsInv(Run(t, calls[..|calls| - 1]), calls[|calls| - 1]);
    }
  }

  /** Exactly which logins get past the password, and that they clear the counter. */
  lemma LoginSucceedsIff(u: User, checkedAt: int, countedAt: int, isMatch: bool)
    ensures var (later, outcome) := LoginUser(u, checkedAt, countedAt, isMatch);
            var passes := Compares(u, checkedAt) && isMatch && u.isVerified;
            && (outcome == LoggedIn <==> passes && !u.twoFactorEnabled)
            && (outcome == TwoFactorRequired <==> passes && u.twoFactorEnabled)
            && (passes ==> later == u.(loginAttempts := 0, lockedUntil := None))
  {
  }

  /** Exactly which logins are refused in which way, and what is counted. */
  lemma LoginRefusedIff(u: User, checkedAt: int, countedAt: int, isMatch: bool)
    ensures var (later, outcome) := LoginUser(u, checkedAt, countedAt, isMatch);
            var counts := Compares(u, checkedAt) && !isMatch;
            && (outcome == AccountLocked <==> !u.isDeleted && u.lockedUntil.Some? && u.lockedUntil.value > checkedAt)
            && (outcome == NotVerified <==> Compares(u, checkedAt) && isMatch && !u.isVerified)
            && (outcome == TooManyAttempts <==> counts && u.loginAttempts >= 4)
            && (outcome == InvalidCredentials <==> u.isDeleted || (counts && u.loginAttempts < 4))
            && (counts ==> later.loginAttempts == u.loginAttempts + 1
                           && later.lockedUntil == if u.loginAttempts >= 4 then Some(countedAt + 900_000) else None)
            && (!counts && outcome !in {LoggedIn, TwoFactorRequired} ==> later == u)
            && later == u.(loginAttempts := later.loginAttempts, lockedUntil := later.lockedUntil)
  {
  }

  predicate Succeeds(t: Users, c: Call) {
    && c.Login? && c.email in t
    && LoginUser(t[c.email], c.checkedAt, c.countedAt, c.isMatch).1 in {LoggedIn, TwoFactorRequired}
  }

  /** A success and a password reset give the user all attempts back; nothing else of the row changes. */
  lemma ReliefClears(t: Users, c: Call)
    requires c.email in t && (c.ResetPassword? || Succeeds(t, c))
    ensures Step(t, c) == t[c.email := t[c.email].(loginAttempts := 0, lockedUntil := None)]
  {
  }

  /** Verification, 2FA setup and deletion leave the counter and the lock alone; a new user starts without either. */
  lemma FlagsKeepCounter(t: Users, c: Call)
    requires c.Flags?
    ensures c.email in Step(t, c)
    ensures var u := Step(t, c)[c.email];
            && u.isDeleted == c.isDeleted && u.isVerified == c.isVerified && u.twoFactorEnabled == c.twoFactorEnabled
            && u.loginAttempts == (if c.email in t then t[c.email].loginAttempts else 0)
            && u.lockedUntil == (if c.email in t then t[c.email].lockedUntil else None)
  {
  }

  /** Logins and resets of an unknown address do nothing. */
  lemma UnknownAddress(t: Users, c: Call)
    requires c.email !in t && !c.Flags?
    ensures Step(t, c) == t
  {
  }

  // ---------------------------------------------------------------- wrong passwords of one user

  /** In this run the user neither logs in nor resets the password. */
  ghost predicate NoRelief(t: Users, calls: seq<Call>, e: Email) {
    forall k :: 0 <= k < |calls| && calls[k].email == e ==>
        !calls[k].ResetPassword? && !Succeeds(Run(t, calls[..k]), calls[k])
  }

  predicate CountsWrong(t: Users, c: Call, e: Email) {
    c.Login? && c.email == e && e in t && Compares(t[e], c.checkedAt) && !c.isMatch
  }

  /** When the wrong passwords of a user were counted, in order. */
  function WrongTimes(t: Users, calls: seq<Call>, e: Email): seq<int> {
    if calls == [] then []
    else
      var front, last := calls[..|calls| - 1], calls[|calls| - 1];
      WrongTimes(t, front, e) + if CountsWrong(Run(t, front), last, e) then [last.countedAt] else []
  }

  /** From the limit on, each counted wrong password is a lockout after the one before. */
  ghost predicate Spaced(times: seq<int>, attempts: nat) {
    forall i :: 0 <= i < |times| - 1 && attempts + i + 1 >= MAX_LOGIN_ATTEMPTS ==> times[i] + LOCKOUT_MS <= times[i + 1]
  }

  /** The row tells how many wrong passwords were counted and when the last one was. */
  ghost predicate RowTells(u: User, start: User, times: seq<int>) {
    && u.loginAttempts == start.loginAttempts + |times|
    && u.lockedUntil == (if times == [] then start.lockedUntil
                         else if u.loginAttempts >= MAX_LOGIN_ATTEMPTS then Some(times[|times| - 1] + LOCKOUT_MS)
                         else None)
  }

  lemma CallKeepsSpacing(t: Users, c: Call, e: Email, start: User, times: seq<int>)
    requires e in t && RowTells(t[e], start, times) && Spaced(times, start.loginAttempts)
    requires c.email == e ==> !c.ResetPassword? && !Succeeds(t, c)
    requires c.Login? ==> c.checkedAt <= c.countedAt
    ensures var later := times + if CountsWrong(t, c, e) then [c.countedAt] else [];
            e in Step(t, c) && RowTells(Step(t, c)[e], start, later) && Spaced(later, start.loginAttempts)
  {
  }

  lemma {:induction false} RunKeepsSpacing(t: Users, calls: seq<Call>, e: Email)
    requires e in t && Monotone(calls) && NoRelief(t, calls, e)
    ensures e in Run(t, calls) && RowTells(Run(t, calls)[e], t[e], WrongTimes(t, calls, e))
    ensures Spaced(WrongTimes(t, calls, e), t[e].loginAttempts)
  {
    if calls != [] {
      var front, last := calls[..|calls| - 1], calls[|calls| - 1];
      assert forall k :: 0 <= k < |front| ==> front[k] == calls[k] && front[..k] == calls[..k];
      hide Step, Succeeds, RowTells, Spaced, CountsWrong;
      RunKeepsSpacing(t, front, e);
      CallKeepsSpacing(Run(t, front), last, e, t[e], WrongTimes(t, front, e));
    }
  }

  lemma {:induction false} SpacingAddsUp(times: seq<int>, attempts: nat, i: nat, j: nat)
    requires Spaced(times, attempts) && i <= j < |times| && attempts + i + 1 >= MAX_LOGIN_ATTEMPTS
    ensures times[j] >= times[i] + LOCKOUT_MS * (j - i)
  {
    if i < j {
      SpacingAddsUp(times, attempts, i, j - 1);
      assert times[j - 1] + LOCKOUT_MS <= times[j - 1 + 1];
    }
  }

  /**
   Without a successful login or a password reset the k-th counted wrong password, k at least five, comes no earlier
   than 15 (k - 5) minutes after the fifth: the counter survives the end of a lock.
   */
  lemma WrongPasswordsAreSlowedDown(t: Users, calls: seq<Call>, e: Email, k: nat)
    requires e in t && t[e].loginAttempts == 0 && Monotone(calls) && NoRelief(t, calls, e)
    requires 5 <= k <= |WrongTimes(t, calls, e)|
    ensures WrongTimes(t, calls, e)[k - 1] >= WrongTimes(t, calls, e)[4] + 15 * 60 * 1000 * (k - 5)
  {
    RunKeepsSpacing(t, calls, e);
    SpacingAddsUp(WrongTimes(t, calls, e), 0, 4, k - 1);
  }

  /**
   Wherever the counter stood, at most one wrong password per lockout period is compared once it has reached the
   limit.
   */
  lemma GuessesInWindow(t: Users, calls: seq<Call>, e: Email, i: nat, window: nat)
    requires e in t && Monotone(calls) && NoRelief(t, calls, e)
    requires i < |WrongTimes(t, calls, e)| && t[e].loginAttempts + i + 1 >= MAX_LOGIN_ATTEMPTS
    requires WrongTimes(t, calls, e)[|WrongTimes(t, calls, e)| - 1] < WrongTimes(t, calls, e)[i] + window
    ensures (|WrongTimes(t, calls, e)| - 1 - i) * LOCKOUT_MS < window
  {
    RunKeepsSpacing(t, calls, e);
    SpacingAddsUp(WrongTimes(t, calls, e), t[e].loginAttempts, i, |WrongTimes(t, calls, e)| - 1);
  }

  /** A password reset ends the lock: whatever came before, the right password is good again at once. */
  lemma ResetRestoresAccess(t: Users, calls: seq<Call>, e: Email, checkedAt: int, countedAt: int)
    requires Inv(t) && e in t
    ensures e in Run(t, calls + [ResetPassword(e)])
    ensures var u := Run(t, calls + [ResetPassword(e)])[e];
            LoginUser(u, checkedAt, countedAt, true).1 in {LoggedIn, TwoFactorRequired} <==>
                !u.isDeleted && u.isVerified
  {
    LockFollowsCounter(t, calls);
    assert (calls + [ResetPassword(e)])[..|calls|] == calls;
  }

  /** Calls about one user leave every other user alone. */
  lemma {:induction false} OthersUntouched(t: Users, calls: seq<Call>, e: Email)
    requires e in t && forall k :: 0 <= k < |calls| ==> calls[k].email != e
    ensures e in Run(t, calls) && Run(t, calls)[e] == t[e]
  {
    if calls != [] {
      OthersUntouched(t, calls[..|calls| - 1], e);
    }
  }

  // ---------------------------------------------------------------- the service object

  class AuthService {
    var users: Users

    /** `login`; `isMatch` is what bcrypt says about the stored hash. */
    method Login(email: Email, checkedAt: int, countedAt: int, isMatch: bool) returns (outcome: Outcome)
      modifies this
      ensures users == Step(old(users), Call.Login(email, checkedAt, countedAt, isMatch))
      ensures outcome == if email in old(users) then LoginUser(old(users)[email], checkedAt, countedAt, isMatch).1
                         else InvalidCredentials
    {
      if email !in users || users[email].isDeleted {
        return InvalidCredentials;
      }
      var user := users[email];
      if user.lockedUntil.Some? && user.lockedUntil.value > checkedAt {
        return AccountLocked;
      }
      if !isMatch {
        var newAttempts := user.loginAttempts + 1;
        var lockedUntil := None;
        if newAttempts >= MAX_LOGIN_ATTEMPTS {
          lockedUntil := Some(countedAt + LOCKOUT_MS);
        }
        users := users[email := user.(loginAttempts := newAttempts, lockedUntil := lockedUntil)];
        return if lockedUntil.Some? then TooManyAttempts else InvalidCredentials;
      }
      if !user.isVerified {
        return NotVerified;
      }
      users := users[email := user.(loginAttempts := 0, lockedUntil := None)];
      return if user.twoFactorEnabled then TwoFactorRequired else LoggedIn;
    }

    /** The user update of `resetPassword`. */
    method ResetPassword(email: Email) returns (found: bool)
      modifies this
      ensures users == Step(old(users), Call.ResetPassword(email)) && (found <==> email in old(users))
    {
      found := email in users;
      if found {
        users := users[email := users[email].(loginAttempts := 0, lockedUntil := None)];
      }
    }
  }
}
