/** The login session: a fixed list of accounts, the signed-in user and the
    browser storage entry that keeps the session across page loads. The
    account list is a parameter and the browser storage is a map field. */
module Auth {
  import opened Types

  /** The storage key holding the signed-in user. */
  const StorageKey := "sonicgrid_user"

  /** One entry of the account list. */
  datatype Account = Account(username: string, key: string)

  /** The account is the one with this name and key. */
  function Matches(a: Account, username: string, key: string): (r: bool)
    ensures r <==> a == Account(username, key)
  {
    a.username == username && a.key == key
  }

  /** `users.find(...)`: the first account with both the user name and the
      key given. */
  function FindAccount(users: seq<Account>, username: string, key: string): (r: Option<Account>)
    ensures r.Some? <==> exists i :: 0 <= i < |users| && Matches(users[i], username, key)
    ensures r.Some? ==> r.value in users && r.value == Account(username, key)
    ensures r.Some? ==> exists k :: (0 <= k < |users| && users[k] == r.value &&
      forall j :: 0 <= j < k ==> !Matches(users[j], username, key))
  {
    if users == [] then None
    else if Matches(users[0], username, key) then Some(users[0])
    else
      var r := FindAccount(users[1..], username, key);
      if r.Some? then
        var k :| 0 <= k < |users| - 1 && users[1..][k] == r.value &&
          forall j :: 0 <= j < k ==> !Matches(users[1..][j], username, key);
        assert users[k + 1] == r.value;
        assert forall j :: 0 <= j < k + 1 ==> !Matches(users[j], username, key) by {
          forall j | 0 <= j < k + 1 ensures !Matches(users[j], username, key) {
            if j > 0 { assert users[j] == users[1..][j - 1]; }
          }
        }
        r
      else
        assert forall i :: 1 <= i < |users| ==> users[i] == users[1..][i - 1];
        r
  }

  /** The session as a value: the flag, the user and the browser storage. */
  datatype Session = Session(isAuthenticated: bool, user: Option<string>, storage: map<string, string>)

  /** The flag agrees with the user, and a signed-in user is the one kept in
      storage. */
  predicate SessionValid(s: Session) {
    && (s.isAuthenticated <==> s.user.Some?)
    && (s.user.Some? ==> StorageKey in s.storage && s.storage[StorageKey] == s.user.value)
  }

  /** `login` on a session. */
  function AfterLogin(s: Session, users: seq<Account>, username: string, key: string): Session
  {
    if FindAccount(users, username, key).Some? then
      Session(true, Some(username), s.storage[StorageKey := username])
    else s
  }

  /** `logout` on a session. */
  function AfterLogout(s: Session): Session
  {
    Session(false, None, s.storage - {StorageKey})
  }

  /** The mount effect on a session: a non-empty stored name signs in. */
  function AfterRestore(s: Session): Session
  {
    if StorageKey in s.storage && s.storage[StorageKey] != "" then
      s.(isAuthenticated := true, user := Some(s.storage[StorageKey]))
    else s
  }

  class AuthProvider {
    var isAuthenticated: bool
    var user: Option<string>
    /** `localStorage` as seen by this page. */
    var storage: map<string, string>

    function State(): Session
      reads this
    {
      Session(isAuthenticated, user, storage)
    }

    ghost predicate Valid()
      reads this
    {
      SessionValid(State())
    }

    /** Fresh state: signed out, over whatever storage the browser holds. */
    constructor(storage: map<string, string>)
      ensures Valid() && State() == Session(false, None, storage)
    {
      isAuthenticated := false;
      user := None;
      this.storage := storage;
    }

    /** The mount effect. */
    method Restore()
      requires Valid()
      modifies this
      ensures Valid() && State() == AfterRestore(old(State()))
    {
      if StorageKey in storage && storage[StorageKey] != "" {
        isAuthenticated := true;
        user := Some(storage[StorageKey]);
      }
    }

    /** `login`: true exactly when some account matches both fields. */
    method Login(users: seq<Account>, username: string, key: string) returns (ok: bool)
      requires Valid()
      modifies this
      ensures Valid() && State() == AfterLogin(old(State()), users, username, key)
      ensures ok <==> exists i :: 0 <= i < |users| && Matches(users[i], username, key)
    {
      var found := FindAccount(users, username, key);
      if found.Some? {
        isAuthenticated := true;
        user := Some(found.value.username);
        storage := storage[StorageKey := found.value.username];
        return true;
      }
      return false;
    }

    /** `logout`. */
    method Logout()
      requires Valid()
      modifies this
      ensures Valid() && State() == AfterLogout(old(State()))
    {
      isAuthenticated := false;
      user := None;
      storage := storage - {StorageKey};
    }
  }

  /** A successful login survives a page reload: restoring from the storage it
      leaves signs the same user in again, even from a fresh signed-out
      state. */
  lemma LoginSurvivesReload(s: Session, users: seq<Account>, username: string, key: string)
    requires SessionValid(s)
    requires username != ""
    requires exists i :: 0 <= i < |users| && Matches(users[i], username, key)
    ensures var t := AfterLogin(s, users, username, key);
      && SessionValid(t)
      && AfterRestore(Session(false, None, t.storage)) == Session(true, Some(username), t.storage)
  {
  }

  /** After logging out, a reload stays signed out. */
  lemma LogoutSurvivesReload(s: Session)
    ensures var t := AfterLogout(s);
      SessionValid(t) && AfterRestore(Session(false, None, t.storage)) == t
  {
  }

  /** A login succeeds exactly when an account matches both fields; it then
      signs that user in and stores the name, and a failed attempt changes
      nothing. */
  lemma LoginOutcome(s: Session, users: seq<Account>, username: string, key: string)
    ensures var t := AfterLogin(s, users, username, key);
      && ((exists i :: 0 <= i < |users| && Matches(users[i], username, key)) ==>
            t.isAuthenticated && t.user == Some(username) && t.storage == s.storage[StorageKey := username])
      && (!(exists i :: 0 <= i < |users| && Matches(users[i], username, key)) ==> t == s)
  {
  }

  /** Logging out signs out and removes the stored name, leaving the rest of
      storage alone. */
  lemma LogoutOutcome(s: Session)
    ensures var t := AfterLogout(s);
      && !t.isAuthenticated && t.user.None? && StorageKey !in t.storage
      && forall k :: k in s.storage && k != StorageKey ==> k in t.storage && t.storage[k] == s.storage[k]
  {
  }

  /** On mount a non-empty stored name restores that user's session; with
      none the state is left as it was. */
  lemma RestoreOutcome(s: Session)
    ensures var t := AfterRestore(s);
      && t.storage == s.storage
      && (StorageKey in s.storage && s.storage[StorageKey] != "" ==>
            t.isAuthenticated && t.user == Some(s.storage[StorageKey]))
      && (!(StorageKey in s.storage && s.storage[StorageKey] != "") ==> t == s)
  {
  }

  /** Every event keeps the session consistent. */
  lemma EventsPreserveValid(s: Session, users: seq<Account>, username: string, key: string)
    requires SessionValid(s)
    ensures SessionValid(AfterLogin(s, users, username, key))
    ensures SessionValid(AfterLogout(s))
    ensures SessionValid(AfterRestore(s))
  {
  }
}
