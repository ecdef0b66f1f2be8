/**
  The autologin service: issues login links backed by freshly drawn tokens and
  redeems those tokens, as pure transitions over the token table.

  Outside collaborators enter as plain values: the configuration as a `Config`,
  the clock as `now` (whole minutes), the random string source as the sequence of
  candidates it would produce, and the URL generator as the functions that turn a
  path or a route name into a URL.
 */
module Autologin {
  import opened Wrappers
  import opened Tokens
  import Provider

  /**
    The `autologin.*` settings the service reads: token length, token lifetime in
    minutes, whether to sweep expired tokens before issuing, whether redemptions
    are counted, and the route name redemption links are built from.
   */
  datatype Config = Config(
    length: nat,
    lifetime: int,
    removeExpired: bool,
    count: bool,
    routeName: string)

  /** All the service asks of a user: its authentication identifier. */
  datatype Authenticatable = Authenticatable(authIdentifier: UserId)

  /** The redemption URL the generator builds from the configured route and the token. */
  datatype Link = Link(routeName: string, token: string)

  /** The result of issuing: the link handed to the caller and the table afterwards. */
  datatype Issued = Issued(link: Link, store: Store)

  /** The result of redeeming: the row found (`None` for null) and the table afterwards. */
  datatype Redemption = Redemption(row: Option<Record>, store: Store)

  /*
   * Redemption
   */

  /**
    Looks the token up; an unknown token yields `None` and changes nothing. A known
    token is returned, with its counter bumped (in the row and in the table) when
    counting is configured. Expiry is not checked here and nothing is deleted.
   */
  function Validate(cfg: Config, s: Store, token: string): (r: Redemption)
    ensures r.row.Some? <==> token in s
    ensures r.store.Keys == s.Keys
    ensures token !in s || !cfg.count ==> r.store == s
    ensures r.row.Some? ==> r.row.value == r.store[token]
    ensures r.row.Some? ==> r.row.value == s[token].(count := r.row.value.count)
    ensures r.row.Some? ==> r.row.value.count == s[token].count + (if cfg.count then 1 else 0)
    ensures forall t :: t in s && t != token ==> r.store[t] == s[t]
    ensures WellKeyed(s) ==> WellKeyed(r.store)
  {
    match Provider.FindByToken(s, token)
    case None => Redemption(None, s)
    case Some(found) =>
      if cfg.count then
        var s' := Provider.IncrementCount(s, token);
        Redemption(Some(s'[token]), s')
      else
        Redemption(Some(found), s)
  }

  /*
   * Token generation
   */

  /** Every candidate the random source yields has the configured length. */
  predicate RandomSource(cfg: Config, candidates: seq<string>)
  {
    forall i :: 0 <= i < |candidates| ==> |candidates[i]| == cfg.length
  }

  /** Some candidate is not yet stored, so the retry loop stops. */
  predicate HasFresh(s: Store, candidates: seq<string>)
  {
    exists i :: 0 <= i < |candidates| && candidates[i] !in s
  }

  /** Draw `i` is the first candidate the table does not already hold. */
  predicate FirstFreshAt(s: Store, candidates: seq<string>, i: int)
  {
    && 0 <= i < |candidates|
    && candidates[i] !in s
    && forall j :: 0 <= j < i ==> candidates[j] in s
  }

  /** The position of the first unstored candidate. */
  function FirstFreshIndex(s: Store, candidates: seq<string>): (i: nat)
    requires HasFresh(s, candidates)
    ensures FirstFreshAt(s, candidates, i)
    decreases |candidates|
  {
    if candidates[0] !in s then 0
    else
      assert HasFresh(s, candidates[1..]) by {
        var k :| 0 <= k < |candidates| && candidates[k] !in s;
        assert candidates[1..][k - 1] == candidates[k];
      }
      1 + FirstFreshIndex(s, candidates[1..])
  }

  /** The token the collision-retry loop settles on: the first unstored candidate. */
  function FreshToken(s: Store, candidates: seq<string>): (t: string)
    requires HasFresh(s, candidates)
  {
    candidates[FirstFreshIndex(s, candidates)]
  }

  /**
    Draws candidates until the table holds no record for one of them, and returns
    that one. Runs only while some candidate is fresh: the real source keeps drawing.
   */
  method GetAutologinToken(cfg: Config, s: Store, candidates: seq<string>) returns (token: string)
    requires RandomSource(cfg, candidates)
    requires HasFresh(s, candidates)
    ensures token !in s
    ensures |token| == cfg.length
    ensures token == FreshToken(s, candidates)
  {
    ghost var first := FirstFreshIndex(s, candidates);
    var k := 0;
    token := candidates[0];
    while Provider.FindByToken(s, token).Some?
      invariant 0 <= k <= first
      invariant token == candidates[k]
      decreases first - k
    {
      k := k + 1;
      token := candidates[k];
    }
    assert k == first;
  }

  /*
   * Expiry
   */

  /** Tokens created before this instant are expired: `lifetime` minutes before `now`. */
  function ExpiryCutoff(cfg: Config, now: int): int
  {
    now - cfg.lifetime
  }

  /** Removes every token older than the configured lifetime, and only those. */
  function DeleteExpiredTokens(cfg: Config, s: Store, now: int): (r: Store)
    ensures forall t :: t in r <==> t in s && now <= s[t].createdAt + cfg.lifetime
    ensures forall t :: t in r ==> r[t] == s[t]
  {
    Provider.DeleteExpiredTokens(s, ExpiryCutoff(cfg, now))
  }

  /** The table issuing works on: swept when the configuration asks for it. */
  function SweepBeforeIssue(cfg: Config, s: Store, now: int): (r: Store)
    ensures forall t :: t in r ==> t in s && r[t] == s[t]
    ensures forall t :: t in s ==> (t in r <==> !cfg.removeExpired || !Expired(s[t], ExpiryCutoff(cfg, now)))
  {
    if cfg.removeExpired then DeleteExpiredTokens(cfg, s, now) else s
  }

  /*
   * Issuing
   */

  /**
    Sweeps if configured, draws a fresh token and stores a new row for the user
    and path under it; returns the redemption link for that token.
   */
  function GetAutologinLink(
    cfg: Config, s: Store, user: Authenticatable, path: Option<string>,
    now: int, candidates: seq<string>): (r: Issued)
    requires RandomSource(cfg, candidates)
    requires HasFresh(SweepBeforeIssue(cfg, s, now), candidates)
    ensures r.link.routeName == cfg.routeName
    ensures |r.link.token| == cfg.length
    ensures r.link.token !in SweepBeforeIssue(cfg, s, now)
    ensures r.store.Keys == SweepBeforeIssue(cfg, s, now).Keys + {r.link.token}
    ensures r.store[r.link.token] == Record(user.authIdentifier, r.link.token, path, 0, now)
    ensures forall t :: t in SweepBeforeIssue(cfg, s, now) ==> r.store[t] == SweepBeforeIssue(cfg, s, now)[t]
    ensures WellKeyed(s) ==> WellKeyed(r.store)
  {
    var swept := SweepBeforeIssue(cfg, s, now);
    var token := FreshToken(swept, candidates);
    Issued(Link(cfg.routeName, token), Provider.Create(swept, user.authIdentifier, token, path, now))
  }

  /** A link that logs the user in and goes to the default destination. */
  function User(cfg: Config, s: Store, user: Authenticatable, now: int, candidates: seq<string>): (r: Issued)
    requires RandomSource(cfg, candidates)
    requires HasFresh(SweepBeforeIssue(cfg, s, now), candidates)
    ensures r.link.token !in SweepBeforeIssue(cfg, s, now)
    ensures r.link.token in r.store
    ensures r.store[r.link.token].userId == user.authIdentifier
    ensures r.store[r.link.token].path == None
  {
    GetAutologinLink(cfg, s, user, None, now, candidates)
  }

  /** A link that logs the user in and then goes to the URL the generator makes of `path`. */
  function To(
    cfg: Config, s: Store, user: Authenticatable, urlTo: string -> string, path: string,
    now: int, candidates: seq<string>): (r: Issued)
    requires RandomSource(cfg, candidates)
    requires HasFresh(SweepBeforeIssue(cfg, s, now), candidates)
    ensures r.link.token !in SweepBeforeIssue(cfg, s, now)
    ensures r.link.token in r.store
    ensures r.store[r.link.token].userId == user.authIdentifier
    ensures r.store[r.link.token].path == Some(urlTo(path))
  {
    GetAutologinLink(cfg, s, user, Some(urlTo(path)), now, candidates)
  }

  /** A link that logs the user in and then goes to the URL the generator makes of route `name`. */
  function Route(
    cfg: Config, s: Store, user: Authenticatable, urlRoute: string -> string, name: string,
    now: int, candidates: seq<string>): (r: Issued)
    requires RandomSource(cfg, candidates)
    requires HasFresh(SweepBeforeIssue(cfg, s, now), candidates)
    ensures r.link.token !in SweepBeforeIssue(cfg, s, now)
    ensures r.link.token in r.store
    ensures r.store[r.link.token].userId == user.authIdentifier
    ensures r.store[r.link.token].path == Some(urlRoute(name))
  {
    GetAutologinLink(cfg, s, user, Some(urlRoute(name)), now, candidates)
  }
}
