/**
 Refresh tokens of the auth service: single-use tokens with an index per user, a
 short grace for retries, logout, and signing out everywhere.

 Redis is modelled as maps whose entries carry the second at which they expire.
 Tokens are numbered in the order they are minted, so none is minted twice.
 `owners` and `logins` record, for the statements only, whom a token was minted
 for and which login it goes back to.
 */
module RefreshTokens {
  import opened Options

  type Token = nat
  type User = nat

  const TOKEN_TTL := 7 * 24 * 3600
  const GRACE := 30

  datatype TokenEntry = TokenEntry(user: User, expires: nat)

  datatype GraceEntry = GraceEntry(successor: Token, expires: nat)

  datatype IndexEntry = IndexEntry(members: set<Token>, expires: nat)

  datatype Store = Store(
    now: nat,
    tokens: map<Token, TokenEntry>,
    grace: map<Token, GraceEntry>,
    index: map<User, IndexEntry>,
    active: set<User>,
    minted: Token,
    owners: map<Token, User>,
    logins: map<Token, Token>)

  function Empty(now: nat, active: set<User>): Store {
    Store(now, map[], map[], map[], active, 0, map[], map[])
  }

  // ---- Reading --------------------------------------------------------------

  predicate IsLive(s: Store, t: Token) {
    t in s.tokens && s.now < s.tokens[t].expires
  }

  /** The successor a rotated token still points to. */
  function Successor(s: Store, t: Token): Option<Token> {
    if t in s.grace && s.now < s.grace[t].expires then Some(s.grace[t].successor) else None
  }

  function Members(s: Store, u: User): set<Token> {
    if u in s.index && s.now < s.index[u].expires then s.index[u].members else {}
  }

  // ---- Writing --------------------------------------------------------------

  /** A token with its place in the index, whose life is extended with it. */
  function Minted(s: Store, u: User, login: Option<Token>): Store {
    var t := s.minted;
    s.(tokens := s.tokens[t := TokenEntry(u, s.now + TOKEN_TTL)],
       index := s.index[u := IndexEntry(Members(s, u) + {t}, s.now + TOKEN_TTL)],
       minted := t + 1,
       owners := s.owners[t := u],
       logins := s.logins[t := if login.Some? then login.value else t])
  }

  function Login(s: Store, u: User): Store {
    Minted(s, u, None)
  }

  function LoginOf(s: Store, t: Token): Token {
    if t in s.logins then s.logins[t] else t
  }

  /** One MULTI: drop the old token, mint the next, leave a grace pointer. */
  function Rotated(s: Store, t: Token): Store
    requires t in s.tokens
  {
    var u := s.tokens[t].user;
    var dropped := s.(
      tokens := s.tokens - {t},
      index := if Members(s, u) == {} then s.index else s.index[u := s.index[u].(members := s.index[u].members - {t})],
      grace := s.grace[t := GraceEntry(s.minted, s.now + GRACE)]);
    Minted(dropped, u, Some(LoginOf(s, t)))
  }

  /** What a refresh answers: the token to use from now on, or None (401). */
  function Refreshed(s: Store, t: Token): Option<Token> {
    if IsLive(s, t) then
      if s.tokens[t].user in s.active then Some(s.minted) else None
    else
      var next := Successor(s, t);
      if next.Some? && IsLive(s, next.value) && s.tokens[next.value].user in s.active then next else None
  }

  function Refresh(s: Store, t: Token): Store {
    if IsLive(s, t) && s.tokens[t].user in s.active then Rotated(s, t) else s
  }

  function Revoked(s: Store, t: Token): Store {
    if !IsLive(s, t) then s.(tokens := s.tokens - {t})
    else
      var u := s.tokens[t].user;
      s.(tokens := s.tokens - {t},
         index := if u in s.index then s.index[u := s.index[u].(members := s.index[u].members - {t})] else s.index)
  }

  /** Logging out also drops the successor that the token still points to. */
  function Logout(s: Store, t: Token): Store {
    match Successor(s, t)
    case None => Revoked(s, t)
    case Some(next) =>
      var both := Revoked(Revoked(s, t), next);
      both.(grace := both.grace - {t})
  }

  function RevokeAll(s: Store, u: User): Store {
    s.(tokens := s.tokens - Members(s, u), index := s.index - {u})
  }

  datatype Request = LogIn(user: User) | RefreshWith(token: Token) | LogOut(token: Token) | SignOutEverywhere(user: User) | Suspend(user: User) | Reactivate(user: User) | Wait(seconds: nat)

  function Step(s: Store, r: Request): Store {
    match r
    case LogIn(u) => Login(s, u)
    case RefreshWith(t) => Refresh(s, t)
    case LogOut(t) => Logout(s, t)
    case SignOutEverywhere(u) => RevokeAll(s, u)
    case Suspend(u) => s.(active := s.active - {u})
    case Reactivate(u) => s.(active := s.active + {u})
    case Wait(seconds) => s.(now := s.now + seconds)
  }

  function Run(s: Store, requests: seq<Request>): Store {
    if requests == [] then s else Step(Run(s, requests[..|requests| - 1]), requests[|requests| - 1])
  }

  // ---- What every request keeps ---------------------------------------------

  /** The user's index is live, holds the token, and lives at least until `expires`. */
  predicate IsIndexed(s: Store, u: User, t: Token, expires: nat) {
    u in s.index && t in Members(s, u) && expires <= s.index[u].expires
  }

  /** A token in the store was minted, for its owner, and is indexed for at least as long as it lives. */
  ghost predicate TokenOk(s: Store, t: Token)
    requires t in s.tokens
  {
    && t < s.minted && t in s.owners && t in s.logins && s.tokens[t].user == s.owners[t]
    && s.tokens[t].expires <= s.now + TOKEN_TTL
    && (IsLive(s, t) ==> IsIndexed(s, s.owners[t], t, s.tokens[t].expires))
  }

  /** A grace pointer goes from a token that is gone to a later one of the same owner and login. */
  ghost predicate PointerOk(s: Store, t: Token)
    requires t in s.grace
  {
    var next := s.grace[t].successor;
    && t !in s.tokens && t < next < s.minted
    && t in s.owners && next in s.owners && s.owners[t] == s.owners[next]
    && t in s.logins && next in s.logins && s.logins[t] == s.logins[next]
  }

  ghost predicate Inv(s: Store) {
    && (forall t: Token :: t in s.owners <==> t < s.minted)
    && (forall t: Token :: t in s.logins <==> t < s.minted)
    && (forall t :: t in s.tokens ==> TokenOk(s, t))
    && (forall t :: t in s.grace ==> PointerOk(s, t))
    && (forall t, v :: t in s.tokens && v in s.tokens && LoginOf(s, t) == LoginOf(s, v) ==> t == v)
    && (forall t :: t in s.logins ==> s.logins[t] <= t)
  }

  lemma EmptyInv(now: nat, active: set<User>)
    ensures Inv(Empty(now, active))
  {
  }

  lemma LoginInv(s: Store, u: User)
    requires Inv(s)
    ensures Inv(Login(s, u))
  {
    var v := Login(s, u);
    forall t | t in v.tokens ensures TokenOk(v, t) {
      if t != s.minted { assert TokenOk(s, t); }
    }
    forall t | t in v.grace ensures PointerOk(v, t) {
      assert PointerOk(s, t);
    }
    forall t, w | t in v.tokens && w in v.tokens && LoginOf(v, t) == LoginOf(v, w) ensures t == w {
      if t != s.minted { assert TokenOk(s, t); }
      if w != s.minted { assert TokenOk(s, w); }
    }
  }

  lemma RotatedInv(s: Store, t: Token)
    requires Inv(s) && IsLive(s, t)
    ensures Inv(Rotated(s, t))
  {
    var v := Rotated(s, t);
    assert TokenOk(s, t);
    forall w | w in v.tokens ensures TokenOk(v, w) {
      if w != s.minted { assert TokenOk(s, w); }
    }
    forall w | w in v.grace ensures PointerOk(v, w) {
      if w != t { assert PointerOk(s, w); }
    }
    forall a, b | a in v.tokens && b in v.tokens && LoginOf(v, a) == LoginOf(v, b) ensures a == b {
      if a != s.minted { assert TokenOk(s, a); }
      if b != s.minted { assert TokenOk(s, b); }
    }
  }

  lemma RevokedInv(s: Store, t: Token)
    requires Inv(s)
    ensures Inv(Revoked(s, t)) && t !in Revoked(s, t).tokens && Revoked(s, t).grace == s.grace
  {
    var v := Revoked(s, t);
    forall w | w in v.tokens ensures TokenOk(v, w) {
      RevokedTokenOk(s, t, w);
    }
    hide TokenOk;
    forall w | w in v.grace ensures PointerOk(v, w) {
      RevokedPointerOk(s, t, w);
    }
  }

  lemma RevokedPointerOk(s: Store, t: Token, w: Token)
    requires Inv(s) && w in s.grace
    ensures PointerOk(Revoked(s, t), w)
  {
    assert PointerOk(s, w);
    hide Inv, TokenOk;
  }

  lemma RevokedTokenOk(s: Store, t: Token, w: Token)
    requires Inv(s) && w in Revoked(s, t).tokens
    ensures TokenOk(Revoked(s, t), w)
  {
    assert TokenOk(s, w);
    hide Inv, PointerOk;
  }

  lemma LogoutInv(s: Store, t: Token)
    requires Inv(s)
    ensures Inv(Logout(s, t))
  {
    RevokedInv(s, t);
    if Successor(s, t).Some? {
      RevokedInv(Revoked(s, t), Successor(s, t).value);
      var both := Revoked(Revoked(s, t), Successor(s, t).value);
      hide Revoked;
      FewerPointersInv(both, t);
    }
  }

  lemma FewerPointersInv(s: Store, t: Token)
    requires Inv(s)
    ensures Inv(s.(grace := s.grace - {t}))
  {
    var v := s.(grace := s.grace - {t});
    forall w | w in v.tokens ensures TokenOk(v, w) {
      assert TokenOk(s, w);
    }
    forall w | w in v.grace ensures PointerOk(v, w) {
      assert PointerOk(s, w);
    }
  }

  lemma RevokeAllInv(s: Store, u: User)
    requires Inv(s)
    ensures Inv(RevokeAll(s, u))
  {
    var v := RevokeAll(s, u);
    forall w | w in v.tokens ensures TokenOk(v, w) {
      assert TokenOk(s, w);
    }
    forall w | w in v.grace ensures PointerOk(v, w) {
      assert PointerOk(s, w);
    }
  }

  lemma WaitInv(s: Store, seconds: nat, active: set<User>)
    requires Inv(s)
    ensures Inv(s.(now := s.now + seconds)) && Inv(s.(active := active))
  {
    var v, w := s.(now := s.now + seconds), s.(active := active);
    forall t | t in v.tokens ensures TokenOk(v, t) && TokenOk(w, t) {
      assert TokenOk(s, t);
    }
    forall t | t in v.grace ensures PointerOk(v, t) && PointerOk(w, t) {
      assert PointerOk(s, t);
    }
  }

  lemma StepInv(s: Store, r: Request)
    requires Inv(s)
    ensures Inv(Step(s, r))
  {
    hide Inv, Login, Rotated, Logout, RevokeAll;
    match r
    case LogIn(u) => LoginInv(s, u);
    case RefreshWith(t) => if IsLive(s, t) { RotatedInv(s, t); }
    case LogOut(t) => LogoutInv(s, t);
    case SignOutEverywhere(u) => RevokeAllInv(s, u);
    case Suspend(u) => WaitInv(s, 0, s.active - {u});
    case Reactivate(u) => WaitInv(s, 0, s.active + {u});
    case Wait(seconds) => WaitInv(s, seconds, s.active);
  }

  lemma {:induction false} RunInv(s: Store, requests: seq<Request>)
    requires Inv(s)
    ensures Inv(Run(s, requests))
  {
    hide Inv, Step;
    if requests != [] {
      RunInv(s, requests[..|requests| - 1]);
      StepInv(Run(s, requests[..|requests| - 1]), requests[|requests| - 1]);
    }
  }

  /** What the service can come to: any requests from an empty store, at any time and with any users. */
  ghost predicate IsReachable(s: Store) {
    exists now: nat, active: set<User>, requests: seq<Request> :: s == Run(Empty(now, active), requests)
  }

  lemma ReachableInv(s: Store)
    requires IsReachable(s)
    ensures Inv(s)
  {
    var now: nat, active: set<User>, requests: seq<Request> :| s == Run(Empty(now, active), requests);
    EmptyInv(now, active);
    RunInv(Empty(now, active), requests);
  }

  // ---- One session per login ------------------------------------------------

  /** Every live token is in its user's index, and the index lives at least as long: signing out everywhere misses none. */
  lemma LiveTokensAreIndexed(s: Store, t: Token)
    requires IsReachable(s) && IsLive(s, t)
    ensures var u := s.tokens[t].user;
      t in Members(s, u) && u in s.index && s.tokens[t].expires <= s.index[u].expires
  {
    ReachableInv(s);
    hide IsReachable, PointerOk;
    assert TokenOk(s, t);
  }

  /** Each login has at most one live token, however often and from wherever it was refreshed. */
  lemma OneTokenPerLogin(s: Store, t: Token, v: Token)
    requires IsReachable(s)
    ensures IsLive(s, t) && IsLive(s, v) && LoginOf(s, t) == LoginOf(s, v) ==> t == v
  {
    ReachableInv(s);
    hide IsReachable, PointerOk, TokenOk;
  }

  // ---- Tokens that are gone stay gone ---------------------------------------

  /** A minted token that is no longer live, and whose grace pointer, if any, leads to one that is not live either. */
  ghost predicate IsDead(s: Store, t: Token) {
    && t < s.minted && !IsLive(s, t)
  }

  ghost predicate LeadsNowhere(s: Store, t: Token) {
    IsDead(s, t) && (Successor(s, t).Some? ==> IsDead(s, Successor(s, t).value))
  }

  lemma DeadStays(s: Store, r: Request, t: Token)
    requires Inv(s) && IsDead(s, t)
    ensures IsDead(Step(s, r), t)
  {
    hide Inv, Members;
  }

  /** Requests leave the grace pointer of a dead token alone, or remove it. */
  lemma PointerStays(s: Store, r: Request, t: Token)
    requires Inv(s) && IsDead(s, t)
    ensures Successor(Step(s, r), t).Some? ==> Successor(Step(s, r), t) == Successor(s, t)
  {
    hide Inv, Members;
  }

  lemma NowhereStays(s: Store, r: Request, t: Token)
    requires Inv(s) && LeadsNowhere(s, t)
    ensures LeadsNowhere(Step(s, r), t)
  {
    hide Inv, Step, IsLive, Successor;
    DeadStays(s, r, t);
    PointerStays(s, r, t);
    if Successor(s, t).Some? && IsDead(s, Successor(s, t).value) { DeadStays(s, r, Successor(s, t).value); }
  }

  lemma {:induction false} NowhereForGood(s: Store, requests: seq<Request>, t: Token)
    requires Inv(s) && LeadsNowhere(s, t)
    ensures LeadsNowhere(Run(s, requests), t)
  {
    hide Inv, Step, LeadsNowhere;
    if requests != [] {
      NowhereForGood(s, requests[..|requests| - 1], t);
      RunInv(s, requests[..|requests| - 1]);
      NowhereStays(Run(s, requests[..|requests| - 1]), requests[|requests| - 1], t);
    }
  }

  lemma NowhereIsRefused(s: Store, t: Token)
    requires LeadsNowhere(s, t)
    ensures Refreshed(s, t).None? && Refresh(s, t) == s
  {
  }

  /** After a sign-out everywhere, no token minted for the user before it gives a session again: not itself, not through its grace. */
  lemma SignOutEverywhereIsFinal(s: Store, u: User, requests: seq<Request>, t: Token)
    requires IsReachable(s) && t in s.owners && s.owners[t] == u
    ensures Refreshed(Run(RevokeAll(s, u), requests), t).None?
  {
    ReachableInv(s);
    hide IsReachable;
    var v := RevokeAll(s, u);
    RevokeAllInv(s, u);
    RevokedAllDead(s, u, t);
    if t in s.grace {
      assert PointerOk(s, t);
      RevokedAllDead(s, u, s.grace[t].successor);
    }
    assert LeadsNowhere(v, t);
    hide Inv, LeadsNowhere, Run, RevokeAll;
    NowhereForGood(v, requests, t);
    NowhereIsRefused(Run(v, requests), t);
  }

  lemma RevokedAllDead(s: Store, u: User, t: Token)
    requires Inv(s) && t in s.owners && s.owners[t] == u
    ensures IsDead(RevokeAll(s, u), t)
  {
    if t in s.tokens { assert TokenOk(s, t); }
    hide PointerOk;
  }

  /** After a logout, the token that was logged out gives no session again. */
  lemma LogoutIsFinal(s: Store, t: Token, requests: seq<Request>)
    requires IsReachable(s) && t < s.minted
    ensures Refreshed(Run(Logout(s, t), requests), t).None?
  {
    ReachableInv(s);
    hide IsReachable;
    LogoutInv(s, t);
    LogoutLeadsNowhere(s, t);
    hide Inv, Run, Logout, LeadsNowhere;
    NowhereForGood(Logout(s, t), requests, t);
    NowhereIsRefused(Run(Logout(s, t), requests), t);
  }

  lemma LogoutLeadsNowhere(s: Store, t: Token)
    requires Inv(s) && t < s.minted
    ensures LeadsNowhere(Logout(s, t), t)
  {
    hide Inv;
  }

  lemma LiveAfterLogout(s: Store, t: Token, v: Token)
    ensures IsLive(Logout(s, t), v) <==> IsLive(s, v) && v != t && Successor(s, t) != Some(v)
    ensures LoginOf(Logout(s, t), v) == LoginOf(s, v)
  {
    LiveAfterRevoke(s, t, v);
    if Successor(s, t).Some? { LiveAfterRevoke(Revoked(s, t), Successor(s, t).value, v); }
    hide Revoked;
  }

  lemma LiveAfterRevoke(s: Store, t: Token, v: Token)
    ensures IsLive(Revoked(s, t), v) <==> IsLive(s, v) && v != t
    ensures Revoked(s, t).logins == s.logins
  {
  }

  /** A logout ends the whole login exactly when the login's live token, if any, is the one given or the one it still points to. */
  lemma LogoutEndsLoginExactly(s: Store, t: Token)
    ensures var after := Logout(s, t);
      (forall v :: IsLive(after, v) ==> LoginOf(after, v) != LoginOf(s, t)) <==>
      (forall v :: IsLive(s, v) && LoginOf(s, v) == LoginOf(s, t) ==> v == t || Successor(s, t) == Some(v))
  {
    forall v ensures IsLive(Logout(s, t), v) <==> IsLive(s, v) && v != t && Successor(s, t) != Some(v)
      ensures LoginOf(Logout(s, t), v) == LoginOf(s, v)
    {
      LiveAfterLogout(s, t, v);
    }
    hide Logout, IsLive, Successor, LoginOf;
  }

  function RotatedTwice(): Store {
    Refresh(Refresh(Login(Empty(0, {7}), 7), 0), 1)
  }

  lemma RotatedTwiceIsReachable()
    ensures IsReachable(RotatedTwice())
  {
    hide Step;
    var requests := [LogIn(7), RefreshWith(0), RefreshWith(1)];
    var start := Empty(0, {7});
    assert requests[..2][..1] == [LogIn(7)] && requests[..2][..1][..0] == [];
    assert Run(start, requests[..2][..1]) == Step(start, LogIn(7));
    assert Run(start, requests[..2]) == Step(Step(start, LogIn(7)), RefreshWith(0));
    assert Run(start, requests) == Step(Step(Step(start, LogIn(7)), RefreshWith(0)), RefreshWith(1));
    RotatedTwiceSteps();
  }

  lemma RotatedTwiceSteps()
    ensures Step(Step(Step(Empty(0, {7}), LogIn(7)), RefreshWith(0)), RefreshWith(1)) == RotatedTwice()
  {
    hide Login, Refresh;
  }

  /** A token that was rotated twice: logging out with it leaves the login its live token. */
  lemma LoginSurvivesOldLogout()
    ensures IsReachable(RotatedTwice())
    ensures var s := RotatedTwice(); IsLive(Logout(s, 0), 2) && LoginOf(s, 2) == LoginOf(s, 0) == 0
  {
    RotatedTwiceIsReachable();
    RotatedTwiceTokens();
    hide RotatedTwice, IsReachable, Logout;
    LiveAfterLogout(RotatedTwice(), 0, 2);
  }

  lemma RotatedTwiceTokens()
    ensures var s := RotatedTwice();
      IsLive(s, 2) && Successor(s, 0) == Some(1) && LoginOf(s, 2) == 0 && LoginOf(s, 0) == 0
  {
  }

  // ---- Retries --------------------------------------------------------------

  /** A refresh that rotates: the new token is live, the old one is not but points to it for 30 seconds. */
  lemma RefreshRotates(s: Store, t: Token)
    requires Inv(s) && IsLive(s, t) && s.tokens[t].user in s.active
    ensures var r := Refresh(s, t);
      && Refreshed(s, t) == Some(s.minted) && IsLive(r, s.minted) && IsDead(r, t)
      && r.tokens[s.minted].user == s.tokens[t].user && LoginOf(r, s.minted) == LoginOf(s, t)
      && Successor(r, t) == Some(s.minted) && r.grace[t].expires == s.now + GRACE
      && forall v :: v != t && IsLive(s, v) ==> IsLive(r, v)
  {
    assert TokenOk(s, t);
    hide PointerOk, Members;
  }

  lemma {:induction false} PointerThroughout(s: Store, requests: seq<Request>, t: Token)
    requires Inv(s) && IsDead(s, t)
    ensures IsDead(Run(s, requests), t)
    ensures Successor(Run(s, requests), t).Some? ==> Successor(Run(s, requests), t) == Successor(s, t)
  {
    hide Inv, Step, IsDead, Successor;
    if requests != [] {
      var front := requests[..|requests| - 1];
      PointerThroughout(s, front, t);
      RunInv(s, front);
      DeadStays(Run(s, front), requests[|requests| - 1], t);
      PointerStays(Run(s, front), requests[|requests| - 1], t);
    }
  }

  /**
   Whatever happens after a rotation: using the old token once more gives its very
   successor or nothing, and leaves the store as it is.
   */
  lemma RetryGivesTheSameSuccessor(s: Store, t: Token, requests: seq<Request>)
    requires IsReachable(s) && IsLive(s, t) && s.tokens[t].user in s.active
    ensures var r := Run(Refresh(s, t), requests);
      && Refresh(r, t) == r
      && (Refreshed(r, t).Some? <==> Successor(r, t).Some? && IsLive(r, s.minted) && r.tokens[s.minted].user in r.active)
      && (Refreshed(r, t).Some? ==> Refreshed(r, t) == Refreshed(s, t))
  {
    ReachableInv(s);
    RefreshRotates(s, t);
    RotatedInv(s, t);
    hide IsReachable;
    PointerThroughout(Refresh(s, t), requests, t);
    hide Inv, Run, Rotated;
  }

  /** Within 30 seconds and with nothing else happening, the retry works. */
  lemma RetryInGraceWorks(s: Store, t: Token, seconds: nat)
    requires IsReachable(s) && IsLive(s, t) && s.tokens[t].user in s.active
    ensures Refreshed(Step(Refresh(s, t), Wait(seconds)), t) == (if seconds < GRACE then Refreshed(s, t) else None)
  {
    ReachableInv(s);
    RefreshRotates(s, t);
    hide IsReachable, Inv, Rotated;
    assert IsLive(Refresh(s, t), s.minted);
    RotatedLifetime(s, t);
  }

  lemma RotatedLifetime(s: Store, t: Token)
    requires IsLive(s, t) && s.tokens[t].user in s.active
    ensures var r := Refresh(s, t); s.minted in r.tokens && r.tokens[s.minted].expires == s.now + TOKEN_TTL && r.now == s.now && r.active == s.active
  {
  }

  // ---- How many sessions were ended -----------------------------------------

  function LiveTokensOf(s: Store, u: User): set<Token> {
    set t | t in s.tokens && IsLive(s, t) && s.tokens[t].user == u
  }

  /** A user's index holds none but the user's tokens. */
  ghost predicate IndexIsOwned(s: Store) {
    forall u: User, t: Token :: u in s.index && t in s.index[u].members ==> t in s.owners && s.owners[t] == u
  }

  lemma StepKeepsOwned(s: Store, r: Request)
    requires Inv(s) && IndexIsOwned(s)
    ensures IndexIsOwned(Step(s, r))
  {
    TokensAreOwned(s);
    hide Inv, Minted, Rotated, Logout, Revoked, IndexIsOwned;
    match r
    case LogIn(u) => MintKeepsOwned(s, u, None);
    case RefreshWith(t) => if IsLive(s, t) { RotationKeepsOwned(s, t); }
    case LogOut(t) => LogoutKeepsOwned(s, t);
    case _ => OthersKeepOwned(s, r);
  }

  lemma MintKeepsOwned(s: Store, u: User, login: Option<Token>)
    requires IndexIsOwned(s) && s.minted !in s.owners
    ensures IndexIsOwned(Minted(s, u, login))
  {
  }

  lemma RotationKeepsOwned(s: Store, t: Token)
    requires IndexIsOwned(s) && s.minted !in s.owners && t in s.tokens
    ensures IndexIsOwned(Rotated(s, t))
  {
    var u := s.tokens[t].user;
    var dropped := s.(
      tokens := s.tokens - {t},
      index := if Members(s, u) == {} then s.index else s.index[u := s.index[u].(members := s.index[u].members - {t})],
      grace := s.grace[t := GraceEntry(s.minted, s.now + GRACE)]);
    assert IndexIsOwned(dropped);
    MintKeepsOwned(dropped, u, Some(LoginOf(s, t)));
    hide Minted, IndexIsOwned;
  }

  lemma RevokeKeepsOwned(s: Store, t: Token)
    requires IndexIsOwned(s)
    ensures IndexIsOwned(Revoked(s, t))
  {
  }

  lemma LogoutKeepsOwned(s: Store, t: Token)
    requires IndexIsOwned(s)
    ensures IndexIsOwned(Logout(s, t))
  {
    RevokeKeepsOwned(s, t);
    if Successor(s, t).Some? { RevokeKeepsOwned(Revoked(s, t), Successor(s, t).value); }
    hide Revoked;
  }

  lemma OthersKeepOwned(s: Store, r: Request)
    requires IndexIsOwned(s) && (r.SignOutEverywhere? || r.Suspend? || r.Reactivate? || r.Wait?)
    ensures IndexIsOwned(Step(s, r))
  {
    hide Login, Refresh, Logout, Members;
  }

  lemma TokensAreOwned(s: Store)
    requires Inv(s)
    ensures s.minted !in s.owners
    ensures forall t: Token :: t in s.tokens ==> t in s.owners && s.owners[t] == s.tokens[t].user
  {
    forall t: Token | t in s.tokens ensures t in s.owners && s.owners[t] == s.tokens[t].user {
      assert TokenOk(s, t);
    }
  }

  lemma {:induction false} RunOwned(s: Store, requests: seq<Request>)
    requires Inv(s) && IndexIsOwned(s)
    ensures IndexIsOwned(Run(s, requests))
  {
    hide Inv, Step, IndexIsOwned;
    if requests != [] {
      RunInv(s, requests[..|requests| - 1]);
      RunOwned(s, requests[..|requests| - 1]);
      StepKeepsOwned(Run(s, requests[..|requests| - 1]), requests[|requests| - 1]);
    }
  }

  lemma ReachableOwned(s: Store)
    requires IsReachable(s)
    ensures IndexIsOwned(s)
  {
    var now: nat, active: set<User>, requests: seq<Request> :| s == Run(Empty(now, active), requests);
    EmptyInv(now, active);
    hide Inv;
    RunOwned(Empty(now, active), requests);
  }

  lemma LiveAreMembers(s: Store, u: User)
    requires IsReachable(s)
    ensures LiveTokensOf(s, u) <= Members(s, u)
    ensures forall t :: t in Members(s, u) && IsLive(s, t) ==> t in LiveTokensOf(s, u)
  {
    ReachableInv(s);
    ReachableOwned(s);
    TokensAreOwned(s);
    hide IsReachable, Inv, Members, IsLive;
    forall t | t in LiveTokensOf(s, u) ensures t in Members(s, u) {
      LiveTokensAreIndexed(s, t);
    }
    MembersAreIndexed(s, u);
  }

  lemma MembersAreIndexed(s: Store, u: User)
    ensures forall t :: t in Members(s, u) ==> u in s.index && t in s.index[u].members
  {
  }

  /**
   The number signing out everywhere reports counts every indexed token: never
   fewer than the user has live tokens, and just as many exactly when none of the
   indexed ones has expired.
   */
  lemma CountIsExactWithoutExpired(s: Store, u: User)
    requires IsReachable(s)
    ensures |LiveTokensOf(s, u)| <= |Members(s, u)|
    ensures |Members(s, u)| == |LiveTokensOf(s, u)| <==> forall t :: t in Members(s, u) ==> IsLive(s, t)
  {
    LiveAreMembers(s, u);
    hide IsReachable, Members, IsLive;
    var all, live := Members(s, u), LiveTokensOf(s, u);
    SubsetIsNoLarger(live, all);
    if |all| == |live| { Subset(live, all); }
    if forall t :: t in all ==> IsLive(s, t) { assert all == live; }
  }

  lemma {:induction false} Subset(a: set<Token>, b: set<Token>)
    requires a <= b && |a| == |b|
    ensures a == b
  {
    if b != {} {
      var x :| x in b;
      if x in a {
        Subset(a - {x}, b - {x});
      } else {
        SubsetIsNoLarger(a, b - {x});
      }
    }
  }

  lemma {:induction false} SubsetIsNoLarger(a: set<Token>, b: set<Token>)
    requires a <= b
    ensures |a| <= |b|
  {
    if a != {} {
      var x :| x in a;
      SubsetIsNoLarger(a - {x}, b - {x});
    }
  }

  /** Two logins six days apart: two days after the second, one session is live and two are counted. */
  lemma ExpiredTokensAreCounted()
    ensures var s := Step(Step(Login(Empty(0, {7}), 7), Wait(6 * 24 * 3600)), LogIn(7));
      var later := Step(s, Wait(2 * 24 * 3600));
      |Members(later, 7)| == 2 && LiveTokensOf(later, 7) == {1}
  {
    var s := Step(Step(Login(Empty(0, {7}), 7), Wait(6 * 24 * 3600)), LogIn(7));
    var later := Step(s, Wait(2 * 24 * 3600));
    assert Members(later, 7) == {0, 1};
  }

  // ---- The handlers ---------------------------------------------------------

  class AuthSessions {
    var now: nat
    var tokens: map<Token, TokenEntry>
    var grace: map<Token, GraceEntry>
    var index: map<User, IndexEntry>
    var active: set<User>
    var minted: Token
    var owners: map<Token, User>
    var logins: map<Token, Token>

    function Snapshot(): Store
      reads this
    {
      Store(now, tokens, grace, index, active, minted, owners, logins)
    }

    constructor (startedAt: nat, users: set<User>)
      ensures Snapshot() == Empty(startedAt, users) && Inv(Snapshot())
    {
      now, active, minted := startedAt, users, 0;
      tokens, grace, index, owners, logins := map[], map[], map[], map[], map[];
      new;
      EmptyInv(startedAt, users);
    }

    method AddToIndex(u: User, t: Token)
      modifies this`index
      ensures index == old(index)[u := IndexEntry(Members(old(Snapshot()), u) + {t}, now + TOKEN_TTL)]
    {
      var members := Members(Snapshot(), u);
      index := index[u := IndexEntry(members + {t}, now + TOKEN_TTL)];
    }

    method RemoveFromIndex(u: User, t: Token)
      modifies this`index
      ensures index == if u in old(index) then old(index)[u := old(index)[u].(members := old(index)[u].members - {t})] else old(index)
    {
      if u in index {
        index := index[u := index[u].(members := index[u].members - {t})];
      }
    }

    method IssueRefreshToken(u: User, login: Option<Token>) returns (t: Token)
      modifies this`tokens, this`index, this`minted, this`owners, this`logins
      ensures t == old(minted) && Snapshot() == Minted(old(Snapshot()), u, login)
    {
      t := minted;
      minted := minted + 1;
      owners := owners[t := u];
      logins := logins[t := if login.Some? then login.value else t];
      tokens := tokens[t := TokenEntry(u, now + TOKEN_TTL)];
      AddToIndex(u, t);
    }

    method RefreshSession(t: Token) returns (session: Option<Token>)
      requires Inv(Snapshot())
      modifies this
      ensures session == Refreshed(old(Snapshot()), t) && Snapshot() == Refresh(old(Snapshot()), t)
    {
      if !IsLive(Snapshot(), t) {
        session := RefreshWithinGrace(t);
        return;
      }
      var u := tokens[t].user;
      if u !in active { return None; }
      ghost var before := Snapshot();
      LiveIsIndexed(before, t);
      hide Inv;
      var login := LoginOf(Snapshot(), t);
      tokens := tokens - {t};
      RemoveFromIndex(u, t);
      grace := grace[t := GraceEntry(minted, now + GRACE)];
      var next := IssueRefreshToken(u, Some(login));
      session := Some(next);
    }

    method RefreshWithinGrace(t: Token) returns (session: Option<Token>)
      requires !IsLive(Snapshot(), t)
      ensures session == Refreshed(Snapshot(), t)
    {
      session := Successor(Snapshot(), t);
      if session.Some? && !(IsLive(Snapshot(), session.value) && tokens[session.value].user in active) {
        session := None;
      }
    }

    method RevokeToken(t: Token)
      modifies this`tokens, this`index
      ensures Snapshot() == Revoked(old(Snapshot()), t)
    {
      var owner := if IsLive(Snapshot(), t) then Some(tokens[t].user) else None;
      tokens := tokens - {t};
      if owner.Some? { RemoveFromIndex(owner.value, t); }
    }

    method LogoutToken(t: Token)
      modifies this`tokens, this`index, this`grace
      ensures Snapshot() == Logout(old(Snapshot()), t)
    {
      var successor := Successor(Snapshot(), t);
      RevokeToken(t);
      if successor.Some? {
        RevokeToken(successor.value);
        grace := grace - {t};
      }
    }

    /** The number of tokens that were indexed. */
    method RevokeAllSessions(u: User) returns (count: nat)
      modifies this`tokens, this`index
      ensures Snapshot() == RevokeAll(old(Snapshot()), u) && count == |Members(old(Snapshot()), u)|
    {
      var members := Members(Snapshot(), u);
      if members != {} {
        tokens := tokens - members;
      }
      index := index - {u};
      count := |members|;
    }
  }

  lemma LiveIsIndexed(s: Store, t: Token)
    requires Inv(s) && IsLive(s, t)
    ensures var u := s.tokens[t].user; u in s.index && s.now < s.index[u].expires && t in Members(s, u)
  {
    assert TokenOk(s, t);
  }
}
