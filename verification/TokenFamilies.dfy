/**
 Refresh tokens (apps/api/src/security/auth.service.ts). Each login starts a family; a refresh exchanges the family's
 token for a new one, and presenting a token that is no longer good revokes the whole family. Token secrets and family
 ids come from injective supplies, carried as numbers; password checks are a parameter. The controller in front
 (apps/api/src/security/auth.controller.ts) demands a device for every login and refresh.
 */
module TokenFamilies {
  import opened Prelude

  type TokenId = nat
  type FamilyId = nat

  /** The default of thirty days. */
  const REFRESH_TTL_MS: int := 30 * 86_400_000

  datatype Token = Token(user: string, family: FamilyId, device: Option<string>, expiresAt: int, revoked: bool)

  /** `exchanged` is history: the tokens that were refreshed successfully, in order. */
  datatype Auth = Auth(tokens: map<TokenId, Token>, versions: map<string, nat>, nextToken: TokenId,
                       nextFamily: FamilyId, exchanged: seq<TokenId>)

  function Issued(a: Auth, user: string, family: FamilyId, device: Option<string>, now: int): Auth {
    a.(tokens := a.tokens[a.nextToken := Token(user, family, device, now + REFRESH_TTL_MS, false)],
       nextToken := a.nextToken + 1)
  }

  /** The login schema's bounds on a device id. */
  predicate DeviceFits(device: string) { 8 <= |device| <= 64 }

  function LoggedIn(a: Auth, user: string, device: string, now: int): Auth {
    if !DeviceFits(device) then a else Issued(a.(nextFamily := a.nextFamily + 1), user, a.nextFamily, Some(device), now)
  }

  /** `updateMany ... SET revokedAt` for the tokens `which` selects. */
  function RevokedWhere(tokens: map<TokenId, Token>, which: Token -> bool): map<TokenId, Token> {
    map t | t in tokens :: if which(tokens[t]) then tokens[t].(revoked := true) else tokens[t]
  }

  predicate Good(a: Auth, t: TokenId, now: int) {
    t in a.tokens && !a.tokens[t].revoked && now <= a.tokens[t].expiresAt
  }

  function FamilyRevoked(a: Auth, family: FamilyId): Auth {
    a.(tokens := RevokedWhere(a.tokens, (x: Token) => x.family == family))
  }

  /** The second half of a successful refresh: revoke what was presented, issue its successor. */
  function Rotated(a: Auth, t: TokenId, device: string, now: int): Auth {
    if t !in a.tokens then a
    else
      var old' := a.tokens[t];
      var spent := a.(tokens := a.tokens[t := old'.(revoked := true)], exchanged := a.exchanged + [t]);
      Issued(spent, old'.user, old'.family, Some(device), now)
  }

  function Refreshed(a: Auth, t: TokenId, device: string, now: int): Auth {
    if device == "" || t !in a.tokens then a
    else if !Good(a, t, now) then FamilyRevoked(a, a.tokens[t].family)
    else Rotated(a, t, device, now)
  }

  function LoggedOut(a: Auth, t: TokenId): Auth {
    if t in a.tokens then a.(tokens := a.tokens[t := a.tokens[t].(revoked := true)]) else a
  }

  /** Which tokens a password change revokes; in SQL, NULL is not different from the device to keep. */
  predicate ChangeRevokes(x: Token, user: string, keep: Option<string>) {
    x.user == user && (keep.Some? && keep.value != "" ==> x.device.Some? && x.device != keep)
  }

  predicate MayChange(a: Auth, user: string, rightPassword: bool, length: nat) {
    user in a.versions && rightPassword && length >= 10
  }

  function PasswordChanged(a: Auth, user: string, rightPassword: bool, length: nat, keep: Option<string>): Auth {
    if !MayChange(a, user, rightPassword, length) then a
    else a.(versions := a.versions[user := a.versions[user] + 1],
            tokens := RevokedWhere(a.tokens, (x: Token) => ChangeRevokes(x, user, keep)))
  }

  class AuthService {
    var tokens: map<TokenId, Token>
    var versions: map<string, nat>
    var nextToken: TokenId
    var nextFamily: FamilyId
    ghost var exchanged: seq<TokenId>

    ghost function View(): Auth
      reads this
    {
      Auth(tokens, versions, nextToken, nextFamily, exchanged)
    }

    constructor (versions: map<string, nat>)
      ensures View() == Auth(map[], versions, 0, 0, [])
    {
      tokens, this.versions, nextToken, nextFamily, exchanged := map[], versions, 0, 0, [];
    }

    method IssueRefreshToken(user: string, family: FamilyId, device: Option<string>, now: int) returns (t: TokenId)
      modifies this
      ensures View() == Issued(old(View()), user, family, device, now) && t == old(nextToken)
    {
      t := nextToken;
      nextToken := nextToken + 1;
      tokens := tokens[t := Token(user, family, device, now + REFRESH_TTL_MS, false)];
    }

    /** A login whose password was accepted; the request schema comes first. */
    method Login(user: string, device: string, now: int) returns (t: Option<TokenId>)
      modifies this
      ensures View() == LoggedIn(old(View()), user, device, now)
      ensures t == if DeviceFits(device) then Some(old(nextToken)) else None
    {
      if |device| < 8 || |device| > 64 { return None; }
      var family := nextFamily;
      nextFamily := nextFamily + 1;
      var fresh' := IssueRefreshToken(user, family, Some(device), now);
      return Some(fresh');
    }

    method Refresh(t: TokenId, device: string, now: int) returns (next: Option<TokenId>)
      modifies this
      ensures View() == Refreshed(old(View()), t, device, now)
      ensures next == if device != "" && Good(old(View()), t, now) then Some(old(nextToken)) else None
    {
      if device == "" || t !in tokens { return None; }
      var stored := tokens[t];
      if stored.revoked || stored.expiresAt < now {
        tokens := RevokedWhere(tokens, (x: Token) => x.family == stored.family);
        return None;
      }
      tokens := tokens[t := stored.(revoked := true)];
      exchanged := exchanged + [t];
      var fresh' := IssueRefreshToken(stored.user, stored.family, Some(device), now);
      return Some(fresh');
    }

    method Logout(t: TokenId)
      modifies this
      ensures View() == LoggedOut(old(View()), t)
    {
      if t in tokens { tokens := tokens[t := tokens[t].(revoked := true)]; }
    }

    method ChangePassword(user: string, rightPassword: bool, length: nat, keep: Option<string>) returns (ok: bool)
      modifies this
      ensures ok == MayChange(old(View()), user, rightPassword, length)
      ensures View() == PasswordChanged(old(View()), user, rightPassword, length, keep)
    {
      if user !in versions || !rightPassword || length < 10 { return false; }
      versions := versions[user := versions[user] + 1];
      tokens := RevokedWhere(tokens, (x: Token) => ChangeRevokes(x, user, keep));
      return true;
    }
  }

  // ---- runs ----

  datatype Event =
    | Login(user: string, device: string, now: int)
    | Refresh(t: TokenId, device: string, now: int)
    | Logout(t: TokenId)
    | ChangePassword(user: string, rightPassword: bool, length: nat, keep: Option<string>)

  function Next(a: Auth, e: Event): Auth {
    match e
    case Login(user, device, now) => LoggedIn(a, user, device, now)
    case Refresh(t, device, now) => Refreshed(a, t, device, now)
    case Logout(t) => LoggedOut(a, t)
    case ChangePassword(user, rightPassword, length, keep) => PasswordChanged(a, user, rightPassword, length, keep)
  }

  function After(a: Auth, es: seq<Event>): Auth
    decreases es
  {
    if es == [] then a else After(Next(a, es[0]), es[1..])
  }

  predicate Fresh(a: Auth) { a.tokens == map[] && a.nextToken == 0 && a.nextFamily == 0 && a.exchanged == [] }

  predicate Live(a: Auth, t: TokenId) { t in a.tokens && !a.tokens[t].revoked }

  /** No family has two tokens that are not revoked, and what was exchanged is revoked. */
  ghost predicate Sound(a: Auth) {
    && (forall t :: t in a.tokens ==> t < a.nextToken && a.tokens[t].family < a.nextFamily)
    && (forall t, u :: Live(a, t) && Live(a, u) && a.tokens[t].family == a.tokens[u].family ==> t == u)
    && (forall i :: 0 <= i < |a.exchanged| ==> a.exchanged[i] in a.tokens && a.tokens[a.exchanged[i]].revoked)
    && Distinct(a.exchanged)
  }

  lemma {:induction false} RotatedSound(a: Auth, t: TokenId, device: string, now: int)
    requires Sound(a) && Good(a, t, now)
    ensures Sound(Rotated(a, t, device, now))
  {
    assert forall i :: 0 <= i < |a.exchanged| ==> a.exchanged[i] != t;
  }

  /** Revoking more never hurts. */
  lemma {:induction false} RevokingSound(a: Auth, b: Auth)
    requires Sound(a) && b.tokens.Keys == a.tokens.Keys && b == a.(tokens := b.tokens, versions := b.versions)
    requires forall t :: t in a.tokens ==> b.tokens[t] == a.tokens[t] || b.tokens[t] == a.tokens[t].(revoked := true)
    ensures Sound(b)
  {}

  lemma {:induction false} NextSound(a: Auth, e: Event)
    requires Sound(a)
    ensures Sound(Next(a, e))
  {
    match e
    case Login(_, _, _) =>
    case Refresh(t, device, now) =>
      if device != "" && Good(a, t, now) { RotatedSound(a, t, device, now); } else { RevokingSound(a, Next(a, e)); }
    case Logout(t) => RevokingSound(a, Next(a, e));
    case ChangePassword(_, _, _, _) => RevokingSound(a, Next(a, e));
  }

  lemma {:induction false} AlwaysSound(a: Auth, es: seq<Event>)
    requires Sound(a)
    ensures Sound(After(a, es))
    decreases es
  {
    if es != [] {
      NextSound(a, es[0]);
      AlwaysSound(Next(a, es[0]), es[1..]);
    }
  }

  /** In every run a family has at most one token that is not revoked. */
  lemma {:induction false} OneLiveTokenPerFamily(start: Auth, es: seq<Event>, t: TokenId, u: TokenId)
    requires Fresh(start) && Live(After(start, es), t) && Live(After(start, es), u)
    requires After(start, es).tokens[t].family == After(start, es).tokens[u].family
    ensures t == u
  {
    AlwaysSound(start, es);
  }

  /** In every run each token is exchanged at most once. */
  lemma {:induction false} ExchangedAtMostOnce(start: Auth, es: seq<Event>, t: TokenId)
    requires Fresh(start)
    ensures multiset(After(start, es).exchanged)[t] <= 1
  {
    AlwaysSound(start, es);
    DistinctOnce(After(start, es).exchanged, t);
  }

  // ---- dead families ----

  ghost predicate Dead(a: Auth, family: FamilyId) {
    family < a.nextFamily && forall t :: t in a.tokens && a.tokens[t].family == family ==> a.tokens[t].revoked
  }

  lemma {:induction false} DeadStep(a: Auth, e: Event, family: FamilyId)
    requires Sound(a) && Dead(a, family)
    ensures Dead(Next(a, e), family)
  {}

  lemma {:induction false} DeadStays(a: Auth, es: seq<Event>, family: FamilyId)
    requires Sound(a) && Dead(a, family)
    ensures Dead(After(a, es), family)
    decreases es
  {
    if es != [] {
      NextSound(a, es[0]);
      DeadStep(a, es[0], family);
      DeadStays(Next(a, es[0]), es[1..], family);
    }
  }

  /** After one refresh with a revoked or expired token no token of that family ever succeeds again, whoever tries and
      whenever. */
  lemma {:induction false} ReuseKillsFamily(start: Auth, before: seq<Event>, t: TokenId, device: string, now: int,
                                            after: seq<Event>, u: TokenId, later: int)
    requires Fresh(start)
    requires var a := After(start, before); device != "" && t in a.tokens && !Good(a, t, now)
    requires var b := After(Refreshed(After(start, before), t, device, now), after);
             u in b.tokens && b.tokens[u].family == After(start, before).tokens[t].family
    ensures !Good(After(Refreshed(After(start, before), t, device, now), after), u, later)
  {
    var a := After(start, before);
    AlwaysSound(start, before);
    NextSound(a, Refresh(t, device, now));
    assert Dead(Refreshed(a, t, device, now), a.tokens[t].family);
    DeadStays(Refreshed(a, t, device, now), after, a.tokens[t].family);
  }

  // ---- logout and password change ----

  /** Logging out ends the session exactly when the token presented is the family's live one, or there is none. */
  lemma {:induction false} LogoutEndsFamilyIff(start: Auth, es: seq<Event>, t: TokenId)
    requires Fresh(start) && t in After(start, es).tokens
    ensures var a := After(start, es);
            Dead(LoggedOut(a, t), a.tokens[t].family) <==> Live(a, t) || Dead(a, a.tokens[t].family)
  {
    AlwaysSound(start, es);
    var a, family := After(start, es), After(start, es).tokens[t].family;
    var b := LoggedOut(a, t);
    if Dead(b, family) && !Live(a, t) {
      forall u | u in a.tokens && a.tokens[u].family == family ensures a.tokens[u].revoked {
        assert b.tokens[u].revoked;
      }
    }
  }

  /** It happens: a client that refreshed and then logs out with the token it had before stays signed in. */
  lemma {:induction false} OldLogoutLeavesSession(start: Auth, user: string, device: string, now: int)
    requires Fresh(start) && DeviceFits(device)
    ensures var a := After(start, [Login(user, device, now), Refresh(0, device, now)]);
            && 0 in a.tokens && !Dead(LoggedOut(a, 0), a.tokens[0].family) && Live(LoggedOut(a, 0), 1)
  {
    var es := [Login(user, device, now), Refresh(0, device, now)];
    var a := Next(start, es[0]);
    assert Good(a, 0, now);
    var b := Next(a, es[1]);
    assert After(start, es) == After(a, es[1..]) == After(b, es[1..][1..]);
    assert Live(LoggedOut(b, 0), 1) && b.tokens[1].family == b.tokens[0].family;
  }

  /** Every token names a device, and the tokens of a family belong to one user. */
  ghost predicate Tagged(a: Auth) {
    && (forall t :: t in a.tokens ==> Given(a.tokens[t].device) && a.tokens[t].family < a.nextFamily)
    && (forall t, u :: t in a.tokens && u in a.tokens && a.tokens[t].family == a.tokens[u].family ==>
       a.tokens[t].user == a.tokens[u].user)
  }

  lemma {:induction false} IssuedTagged(a: Auth, b: Auth, user: string, family: FamilyId, device: string, now: int)
    requires Tagged(a) && b.tokens == a.tokens && b.nextFamily >= a.nextFamily && family < b.nextFamily && device != ""
    requires forall t :: t in a.tokens && a.tokens[t].family == family ==> a.tokens[t].user == user
    ensures Tagged(Issued(b, user, family, Some(device), now))
  {}

  /** Revoking changes neither device nor family nor user. */
  lemma {:induction false} RevokingTagged(a: Auth, b: Auth)
    requires Tagged(a) && b.tokens.Keys == a.tokens.Keys && b.nextFamily == a.nextFamily
    requires forall t :: t in a.tokens ==> b.tokens[t] == a.tokens[t] || b.tokens[t] == a.tokens[t].(revoked := true)
    ensures Tagged(b)
  {}

  lemma {:induction false} NextTagged(a: Auth, e: Event)
    requires Tagged(a)
    ensures Tagged(Next(a, e))
  {
    match e
    case Login(user, device, now) =>
      if DeviceFits(device) {
        var b := a.(nextFamily := a.nextFamily + 1);
        IssuedTagged(a, b, user, a.nextFamily, device, now);
      }
    case Refresh(t, device, now) =>
      if device != "" && Good(a, t, now) {
        var b := a.(tokens := a.tokens[t := a.tokens[t].(revoked := true)], exchanged := a.exchanged + [t]);
        RevokingTagged(a, b);
        IssuedTagged(b, b, a.tokens[t].user, a.tokens[t].family, device, now);
      } else {
        RevokingTagged(a, Next(a, e));
      }
    case Logout(t) => RevokingTagged(a, Next(a, e));
    case ChangePassword(_, _, _, _) => RevokingTagged(a, Next(a, e));
  }

  lemma {:induction false} AlwaysTagged(a: Auth, es: seq<Event>)
    requires Tagged(a)
    ensures Tagged(After(a, es))
    decreases es
  {
    if es != [] {
      NextTagged(a, es[0]);
      AlwaysTagged(Next(a, es[0]), es[1..]);
    }
  }

  /** In every run every token names a device, although the column may be NULL: login and refresh both demand one. */
  lemma {:induction false} EveryTokenHasDevice(start: Auth, es: seq<Event>, t: TokenId)
    requires Fresh(start) && t in After(start, es).tokens
    ensures Given(After(start, es).tokens[t].device)
  {
    AlwaysTagged(start, es);
  }

  /** The family's live token is on the device to keep. */
  ghost predicate OnKeptDevice(a: Auth, family: FamilyId, keep: Option<string>) {
    Given(keep) && exists u :: Live(a, u) && a.tokens[u].family == family && a.tokens[u].device == keep
  }

  /** In every run a password change ends exactly those of the user's sessions that are not on the device it was made
      from, and the sessions of others that were over already. */
  lemma {:induction false} PasswordChangeEndsOthers(start: Auth, es: seq<Event>, user: string, length: nat,
                                                    keep: Option<string>, t: TokenId)
    requires Fresh(start) && MayChange(After(start, es), user, true, length) && t in After(start, es).tokens
    ensures var a := After(start, es);
            var family := a.tokens[t].family;
            Dead(PasswordChanged(a, user, true, length, keep), family) <==>
            if a.tokens[t].user == user then !OnKeptDevice(a, family, keep) else Dead(a, family)
  {
    AlwaysTagged(start, es);
    ChangeEndsOthers(After(start, es), user, length, keep, t);
  }

  lemma {:induction false} ChangeEndsOthers(a: Auth, user: string, length: nat, keep: Option<string>, t: TokenId)
    requires Tagged(a) && MayChange(a, user, true, length) && t in a.tokens
    ensures Dead(PasswordChanged(a, user, true, length, keep), a.tokens[t].family) <==>
            if a.tokens[t].user == user then !OnKeptDevice(a, a.tokens[t].family, keep) else Dead(a, a.tokens[t].family)
  {
    var b, family := PasswordChanged(a, user, true, length, keep), a.tokens[t].family;
    forall u | u in a.tokens && a.tokens[u].family == family
      ensures b.tokens[u].revoked <==>
              a.tokens[u].revoked || (a.tokens[u].user == user && !(Given(keep) && a.tokens[u].device == keep))
    {}
    if Dead(b, family) {
      forall u | u in a.tokens && a.tokens[u].family == family ensures b.tokens[u].revoked {}
    }
  }

  /** And for good: no token of an ended session is ever good again. */
  lemma {:induction false} EndedSessionsStayEnded(start: Auth, es: seq<Event>, user: string, length: nat,
                                                  keep: Option<string>, t: TokenId,
                                                  after: seq<Event>, u: TokenId, later: int)
    requires Fresh(start) && MayChange(After(start, es), user, true, length) && t in After(start, es).tokens
    requires After(start, es).tokens[t].user == user
    requires !OnKeptDevice(After(start, es), After(start, es).tokens[t].family, keep)
    requires var b := After(PasswordChanged(After(start, es), user, true, length, keep), after);
             u in b.tokens && b.tokens[u].family == After(start, es).tokens[t].family
    ensures !Good(After(PasswordChanged(After(start, es), user, true, length, keep), after), u, later)
  {
    var a := After(start, es);
    AlwaysSound(start, es);
    PasswordChangeEndsOthers(start, es, user, length, keep, t);
    NextSound(a, ChangePassword(user, true, length, keep));
    DeadStays(PasswordChanged(a, user, true, length, keep), after, a.tokens[t].family);
  }

  // ---- the atomicity that is assumed ----

  /** Without it both laws fail: two refreshes that both read the token before either writes fork the family. */
  lemma {:induction false} InterleavedRefreshForks(a: Auth, t: TokenId, one: string, two: string, now: int)
    requires Sound(a) && Good(a, t, now)
    ensures var b := Rotated(Rotated(a, t, one, now), t, two, now);
            && multiset(b.exchanged)[t] == 2
            && Live(b, a.nextToken) && Live(b, a.nextToken + 1)
               && b.tokens[a.nextToken].family == b.tokens[a.nextToken + 1].family
  {
    assert t !in a.exchanged;
    var once := a.exchanged + [t];
    assert (once + [t])[|once|] == t && Rotated(Rotated(a, t, one, now), t, two, now).exchanged == once + [t];
    assert multiset(a.exchanged)[t] == 0;
  }
}
