/** The client-side login session (frontend/services/sessionManager.ts):
    four entries of the device's key-value store hold the token, the user
    record as JSON text, the remember-me flag and the expiry time, in
    milliseconds since the epoch. A session that is not remembered expires
    a day after it was saved or last refreshed; reading an expired session
    removes it. */
module Session {
  import opened Wrappers
  import opened Decimal
  import opened JsText

  /** The key-value store: keys to string values. */
  type Storage = map<string, string>

  const USER_TOKEN: string := "user_token"
  const USER_DATA: string := "user_data"
  const REMEMBER_ME: string := "remember_me"
  const EXPIRES_AT: string := "session_expires_at"

  /** The four keys the session occupies. */
  const SESSION_KEYS: set<string> := {USER_TOKEN, USER_DATA, REMEMBER_ME, EXPIRES_AT}

  /** One day, in milliseconds. */
  const DAY: nat := 24 * 60 * 60 * 1000

  /** A session as the application hands it over and gets it back: `user`
      is the JSON text of the user record. */
  datatype SessionData = SessionData(token: string, user: string, rememberMe: bool, expiresAt: Number)

  function Get(st: Storage, key: string): Option<string> {
    if key in st then Some(st[key]) else None
  }

  /** A stored value counts as present when it is there and not empty. */
  predicate Present(v: Option<string>) {
    v.Some? && v.value != ""
  }

  /** `JSON.stringify` of a boolean. */
  function BoolJson(b: bool): (t: string)
    ensures (t == "true") == b
  {
    if b then "true" else "false"
  }

  /** What `saveSession` stores as the expiry: `"0"` for a remembered
      session, otherwise the moment one day after `now`. */
  function ExpiryText(rememberMe: bool, now: nat): string {
    if rememberMe then "0" else IntToString(now + DAY)
  }

  // ---------------------------------------------------------------------
  // The operations on the store, as functions of the store
  // ---------------------------------------------------------------------

  /** The store after `saveSession(s)` at time `now`. The `expiresAt` the
      caller passes is not stored: the expiry is recomputed. */
  function Saved(st: Storage, s: SessionData, now: nat): (r: Storage)
    ensures r.Keys == st.Keys + SESSION_KEYS
    ensures forall k :: k in st && k !in SESSION_KEYS ==> r[k] == st[k]
    ensures r[USER_TOKEN] == s.token && r[USER_DATA] == s.user
    ensures r[REMEMBER_ME] == BoolJson(s.rememberMe)
    ensures r[EXPIRES_AT] == ExpiryText(s.rememberMe, now)
  {
    st[USER_TOKEN := s.token][USER_DATA := s.user][REMEMBER_ME := BoolJson(s.rememberMe)][EXPIRES_AT := ExpiryText(s.rememberMe, now)]
  }

  /** The store after `clearSession`: the four session keys removed. */
  function Cleared(st: Storage): (r: Storage)
    ensures r.Keys == st.Keys - SESSION_KEYS
    ensures forall k :: k in r ==> r[k] == st[k]
  {
    st - SESSION_KEYS
  }

  /** The session is not remembered, carries an expiry that reads as a
      positive number, and `now` lies past it. */
  predicate Expired(st: Storage, now: nat) {
    && Get(st, REMEMBER_ME) != Some("true")
    && Present(Get(st, EXPIRES_AT))
    && var e := ParseInt(st[EXPIRES_AT]);
       e.Int? && e.value > 0 && now > e.value
  }

  /** `getSession` at time `now`: the session it returns, and the store it
      leaves behind. */
  function ReadSession(st: Storage, now: nat): (r: (Option<SessionData>, Storage))
    ensures r.0.Some? ==> Present(Get(st, USER_TOKEN)) && Present(Get(st, USER_DATA)) && !Expired(st, now)
    ensures r.0.Some? ==> r.0.value.token == st[USER_TOKEN] && r.0.value.user == st[USER_DATA]
    ensures r.0.Some? ==> (r.0.value.rememberMe <==> Get(st, REMEMBER_ME) == Some("true"))
    ensures r.1 == st || r.1 == Cleared(st)
  {
    if !Present(Get(st, USER_TOKEN)) || !Present(Get(st, USER_DATA)) then (None, st)
    else if Expired(st, now) then (None, Cleared(st))
    else
      var expires := if Present(Get(st, EXPIRES_AT)) then st[EXPIRES_AT] else "0";
      (Some(SessionData(st[USER_TOKEN], st[USER_DATA], Get(st, REMEMBER_ME) == Some("true"), ParseInt(expires))), st)
  }

  /** `refreshSession`: the session is read at `now` (which may remove an
      expired one); a live session that is not remembered then gets a new
      expiry one day after `later`, the clock's second reading. */
  function Refreshed(st: Storage, now: nat, later: nat): Storage {
    var (session, st1) := ReadSession(st, now);
    if session.Some? && !session.value.rememberMe then st1[EXPIRES_AT := IntToString(later + DAY)]
    else st1
  }

  // ---------------------------------------------------------------------
  // Properties
  // ---------------------------------------------------------------------

  /** The rendering of zero is the text `"0"`, which `parseInt` reads back
      as zero. */
  lemma ParseZero()
    ensures IntToString(0) == "0" && ParseInt("0") == Int(0)
  {
    ParseIntOfIntToString(0);
  }

  /** A session saved at `now` is read back as it was saved, at any time up
      to one day later when it is not remembered; its expiry reads as `0`
      when it is remembered and as `now` plus one day otherwise. Reading it
      changes nothing. */
  lemma SaveThenRead(st: Storage, s: SessionData, now: nat, t: nat)
    requires s.token != "" && s.user != ""
    requires !s.rememberMe ==> t <= now + DAY
    ensures ReadSession(Saved(st, s, now), t)
      == (Some(SessionData(s.token, s.user, s.rememberMe, Int(if s.rememberMe then 0 else now + DAY))), Saved(st, s, now))
  {
    var st1 := Saved(st, s, now);
    if s.rememberMe {
      ParseZero();
    } else {
      ParseIntOfIntToString(now + DAY);
      assert BoolJson(false) != "true";
    }
  }

  /** A session that is not remembered is gone once more than a day has
      passed since it was saved: reading it returns nothing and removes it,
      which leaves the store as if it had never been saved, except for the
      session keys it had before. */
  lemma SaveThenReadExpired(st: Storage, s: SessionData, now: nat, t: nat)
    requires s.token != "" && s.user != ""
    requires !s.rememberMe && t > now + DAY
    ensures ReadSession(Saved(st, s, now), t) == (None, Cleared(Saved(st, s, now)))
    ensures Cleared(Saved(st, s, now)) == Cleared(st)
  {
    ParseIntOfIntToString(now + DAY);
    assert BoolJson(false) != "true";
  }

  /** A remembered session never expires. */
  lemma RememberedNeverExpires(st: Storage, now: nat)
    requires Get(st, REMEMBER_ME) == Some("true")
    requires Present(Get(st, USER_TOKEN)) && Present(Get(st, USER_DATA))
    ensures ReadSession(st, now).0.Some? && ReadSession(st, now).1 == st
  {
  }

  /** Nor does one whose expiry does not read as a positive number (`"0"`,
      or text that `parseInt` cannot read). */
  lemma NoPositiveExpiryNeverExpires(st: Storage, now: nat)
    requires Present(Get(st, USER_TOKEN)) && Present(Get(st, USER_DATA))
    requires EXPIRES_AT in st
    requires ParseInt(st[EXPIRES_AT]).NaN? || ParseInt(st[EXPIRES_AT]).value <= 0
    ensures ReadSession(st, now).0.Some? && ReadSession(st, now).1 == st
  {
  }

  /** The expiry moment itself still belongs to the session: it expires
      only strictly after. */
  lemma ValidAtExpiryMoment(st: Storage, s: SessionData, now: nat)
    requires s.token != "" && s.user != "" && !s.rememberMe
    ensures ReadSession(Saved(st, s, now), now + DAY).0.Some?
    ensures ReadSession(Saved(st, s, now), now + DAY + 1).0.None?
  {
    SaveThenRead(st, s, now, now + DAY);
    SaveThenReadExpired(st, s, now, now + DAY + 1);
  }

  /** Without a token or without user data there is no session, and the
      store is left as it is. */
  lemma NoTokenNoSession(st: Storage, now: nat)
    requires !Present(Get(st, USER_TOKEN)) || !Present(Get(st, USER_DATA))
    ensures ReadSession(st, now) == (None, st)
  {
  }

  /** Reading changes the store only by removing an expired session, and
      then it reports no session. */
  lemma ReadClearsOnlyExpired(st: Storage, now: nat)
    ensures ReadSession(st, now).1 != st ==> ReadSession(st, now) == (None, Cleared(st)) && Expired(st, now)
  {
  }

  /** Clearing leaves every other key as it was, clearing twice is clearing
      once, and after clearing there is no session. */
  lemma ClearProperties(st: Storage, now: nat)
    ensures forall k :: k in st && k !in SESSION_KEYS ==> k in Cleared(st) && Cleared(st)[k] == st[k]
    ensures Cleared(Cleared(st)) == Cleared(st)
    ensures ReadSession(Cleared(st), now) == (None, Cleared(st))
  {
    assert USER_TOKEN !in Cleared(st);
  }

  /** Refreshing a live session that is not remembered keeps it alive for
      one day after the refresh. */
  lemma RefreshExtends(st: Storage, now: nat, later: nat, t: nat)
    requires ReadSession(st, now).0.Some? && !ReadSession(st, now).0.value.rememberMe
    requires t <= later + DAY
    ensures ReadSession(Refreshed(st, now, later), t).0.Some?
    ensures ReadSession(Refreshed(st, now, later), t).0.value.expiresAt == Int(later + DAY)
  {
    RefreshChangesOnlyExpiry(st, now, later);
    ReadWithExpiry(st, later + DAY, t);
  }

  /** A session whose expiry is rewritten to `e` is read, at any time up to
      `e`, with that expiry. */
  lemma ReadWithExpiry(st: Storage, e: nat, t: nat)
    requires Present(Get(st, USER_TOKEN)) && Present(Get(st, USER_DATA)) && t <= e
    ensures var r := ReadSession(st[EXPIRES_AT := IntToString(e)], t);
      r.0.Some? && r.0.value.expiresAt == Int(e)
  {
    var st1 := st[EXPIRES_AT := IntToString(e)];
    ParseIntOfIntToString(e);
    assert Get(st1, USER_TOKEN) == Get(st, USER_TOKEN);
    assert Get(st1, USER_DATA) == Get(st, USER_DATA);
    assert Get(st1, EXPIRES_AT) == Some(IntToString(e));
    assert !Expired(st1, t);
  }

  /** Refreshing changes only the expiry, and nothing at all when there is
      no live session to extend or it is remembered (an expired one is
      removed, as any read does). */
  lemma RefreshChangesOnlyExpiry(st: Storage, now: nat, later: nat)
    ensures var r := ReadSession(st, now);
      r.0.Some? && !r.0.value.rememberMe ==> Refreshed(st, now, later) == st[EXPIRES_AT := IntToString(later + DAY)]
    ensures var r := ReadSession(st, now);
      !(r.0.Some? && !r.0.value.rememberMe) ==> Refreshed(st, now, later) == r.1
  {
  }

  // ---------------------------------------------------------------------
  // The manager over a mutable store
  // ---------------------------------------------------------------------

  /** The session manager together with the store it works on: the
      `SessionManager` static methods over the device's key-value store. */
  class SessionManager {
    var storage: Storage

    constructor(initial: Storage)
      ensures storage == initial
    {
      storage := initial;
    }

    /** `saveSession`: four writes, the last one depending on the
        remember-me flag. */
    method SaveSession(s: SessionData, now: nat)
      modifies this
      ensures storage == Saved(old(storage), s, now)
    {
      storage := storage[USER_TOKEN := s.token];
      storage := storage[USER_DATA := s.user];
      storage := storage[REMEMBER_ME := BoolJson(s.rememberMe)];
      if s.rememberMe {
        storage := storage[EXPIRES_AT := "0"];
      } else {
        var expiresAt := now + DAY;
        storage := storage[EXPIRES_AT := IntToString(expiresAt)];
      }
    }

    /** `getSession` at time `now`. */
    method GetSession(now: nat) returns (session: Option<SessionData>)
      modifies this
      ensures (session, storage) == ReadSession(old(storage), now)
    {
      var token := Get(storage, USER_TOKEN);
      var userData := Get(storage, USER_DATA);
      var rememberMe := Get(storage, REMEMBER_ME);
      var expiresAt := Get(storage, EXPIRES_AT);
      if !Present(token) || !Present(userData) {
        return None;
      }
      if rememberMe != Some("true") && Present(expiresAt) {
        var expirationTime := ParseInt(expiresAt.value);
        if expirationTime.Int? && expirationTime.value > 0 && now > expirationTime.value {
          ClearSession();
          return None;
        }
      }
      var expires := if Present(expiresAt) then expiresAt.value else "0";
      session := Some(SessionData(token.value, userData.value, rememberMe == Some("true"), ParseInt(expires)));
    }

    /** `isSessionValid`: whether `getSession` finds a session (which may
        remove an expired one). */
    method IsSessionValid(now: nat) returns (valid: bool)
      modifies this
      ensures valid == ReadSession(old(storage), now).0.Some?
      ensures storage == ReadSession(old(storage), now).1
    {
      var session := GetSession(now);
      valid := session.Some?;
    }

    /** `clearSession`: the four keys removed at once. */
    method ClearSession()
      modifies this
      ensures storage == Cleared(old(storage))
    {
      storage := storage - SESSION_KEYS;
    }

    /** `refreshSession`, reading the session at `now` and the clock again
        at `later`. */
    method RefreshSession(now: nat, later: nat)
      modifies this
      ensures storage == Refreshed(old(storage), now, later)
    {
      var session := GetSession(now);
      if session.Some? && !session.value.rememberMe {
        var newExpiresAt := later + DAY;
        storage := storage[EXPIRES_AT := IntToString(newExpiresAt)];
      }
    }
  }
}
