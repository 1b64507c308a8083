/**
 * The hook itself as an object whose fields the three operations update in
 * place: `user` and `loading` are the React state cells, `slot` is the
 * 'melx_session' entry of local storage. Each method is proved against the
 * matching step function of AuthSpec.
 */
module UseAuth {
  import opened Wrappers
  import opened AuthSpec

  class AuthState {
    var user: Option<User>
    var loading: bool
    var slot: Option<Stored>

    /** The current state as a value. */
    function Snapshot(): State
      reads this
    {
      State(user, loading, slot)
    }

    /** Mounting the hook: no user yet, loading on, storage as it was left. */
    constructor (stored: Option<Stored>)
      ensures Snapshot() == Initial(stored)
    {
      user := None;
      loading := true;
      slot := stored;
    }

    /** The startup check run once by the mount effect. */
    method CheckSession(now: nat)
      modifies this
      ensures Snapshot() == AfterCheckSession(old(Snapshot()), now)
      ensures !loading
    {
      if slot.Some? && slot.value != EmptyText {
        match slot.value
        case Unparsable =>
          slot := None;
        case Parsed(u, expires, _) =>
          if expires > now {
            user := Some(u);
          } else {
            slot := None;
          }
      }
      loading := false;
    }

    /**
     * `login`: loading goes on, the lookup result and the decoded password are
     * checked in order, and on success the session is written and the user
     * set; loading goes off on every path.
     */
    method Login(password: string, lookup: Lookup, atob: string -> Option<string>,
                 expiresClock: nat, loginClock: nat, writeFails: bool) returns (ok: bool)
      modifies this
      ensures Outcome(ok, Snapshot()) ==
              AfterLogin(old(Snapshot()), password, lookup, atob, expiresClock, loginClock, writeFails)
      ensures !loading
      ensures !ok ==> user == old(user) && slot == old(slot)
    {
      loading := true;
      ok := false;
      if lookup.Rows? && |lookup.rows| > 0 {
        var row := lookup.rows[0];
        var storedPassword := atob(row.password);
        if storedPassword.Some? && password == storedPassword.value {
          var sessionUser := SessionUserOf(row);
          var session := Parsed(sessionUser, expiresClock + SESSION_TTL, loginClock);
          if !writeFails {
            slot := Some(session);
            user := Some(sessionUser);
            ok := true;
          }
        }
      }
      loading := false;
    }

    /** `logout`: removes the stored session and clears the user. */
    method Logout()
      modifies this
      ensures Snapshot() == AfterLogout(old(Snapshot()))
      ensures user == None && slot == None && loading == old(loading)
    {
      slot := None;
      user := None;
    }
  }
}
