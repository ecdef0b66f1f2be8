/**
  Properties of the token lifecycle that relate several calls: issuing then
  redeeming, repeated redemption, and what a sweep before issuing keeps.
 */
module AutologinProperties {
  import opened Wrappers
  import opened Tokens
  import opened Autologin

  /** Redeeming an unknown token returns null, leaves the table alone, and so gives the same answer again. */
  lemma UnknownTokenHasNoEffect(cfg: Config, s: Store, token: string)
    requires token !in s
    ensures Validate(cfg, s, token) == Redemption(None, s)
    ensures Validate(cfg, Validate(cfg, s, token).store, token) == Validate(cfg, s, token)
  {
  }

  /** With counting on, a known token's counter goes up by exactly one and no other row changes. */
  lemma CountedRedemption(cfg: Config, s: Store, token: string)
    requires cfg.count && token in s
    ensures var bumped := s[token].(count := s[token].count + 1);
      Validate(cfg, s, token) == Redemption(Some(bumped), s[token := bumped])
  {
  }

  /** With counting off, a known token's row comes back as stored and the table is untouched. */
  lemma UncountedRedemption(cfg: Config, s: Store, token: string)
    requires !cfg.count && token in s
    ensures Validate(cfg, s, token) == Redemption(Some(s[token]), s)
  {
  }

  /** Redeems each token of `tokens` in turn and returns the final table. */
  function ValidateAll(cfg: Config, s: Store, tokens: seq<string>): Store
    decreases |tokens|
  {
    if |tokens| == 0 then s
    else ValidateAll(cfg, Validate(cfg, s, tokens[0]).store, tokens[1..])
  }

  /**
    After any run of redemptions every stored token is still stored, with every
    field as before except the counter, which has gone up once per redemption of
    that token when counting is on and not at all otherwise.
   */
  lemma {:induction false} RepeatedRedemption(cfg: Config, s: Store, tokens: seq<string>, t: string)
    requires t in s
    ensures ValidateAll(cfg, s, tokens).Keys == s.Keys
    ensures ValidateAll(cfg, s, tokens)[t]
         == s[t].(count := s[t].count + if cfg.count then multiset(tokens)[t] else 0)
    decreases |tokens|
  {
    if |tokens| > 0 {
      var s1 := Validate(cfg, s, tokens[0]).store;
      RepeatedRedemption(cfg, s1, tokens[1..], t);
      assert tokens == [tokens[0]] + tokens[1..];
      assert multiset(tokens) == multiset{tokens[0]} + multiset(tokens[1..]);
    }
  }

  /** A stored token stays redeemable however often it or others are redeemed: only a sweep removes it. */
  lemma StaysRedeemable(cfg: Config, s: Store, tokens: seq<string>, t: string)
    requires t in s
    ensures Validate(cfg, ValidateAll(cfg, s, tokens), t).row.Some?
  {
    RepeatedRedemption(cfg, s, tokens, t);
  }

  /** Issuing then redeeming the issued token returns a row for the issued user and path. */
  lemma IssueThenValidate(
    cfg: Config, s: Store, user: Authenticatable, path: Option<string>,
    now: int, candidates: seq<string>)
    requires RandomSource(cfg, candidates)
    requires HasFresh(SweepBeforeIssue(cfg, s, now), candidates)
    ensures var issued := GetAutologinLink(cfg, s, user, path, now, candidates);
      var v := Validate(cfg, issued.store, issued.link.token);
      && v.row.Some?
      && v.row.value.userId == user.authIdentifier
      && v.row.value.path == path
      && v.row.value.token == issued.link.token
      && v.row.value.count == if cfg.count then 1 else 0
  {
  }

  /**
    What issuing keeps of the prior table: with sweeping on, exactly the rows that
    are not expired (plus the new one); with sweeping off, every prior row.
   */
  lemma IssueKeepsUnexpired(
    cfg: Config, s: Store, user: Authenticatable, path: Option<string>,
    now: int, candidates: seq<string>)
    requires RandomSource(cfg, candidates)
    requires HasFresh(SweepBeforeIssue(cfg, s, now), candidates)
    ensures var issued := GetAutologinLink(cfg, s, user, path, now, candidates);
      forall t :: t in s && t != issued.link.token ==>
        (t in issued.store <==> !cfg.removeExpired || now <= s[t].createdAt + cfg.lifetime)
    ensures var issued := GetAutologinLink(cfg, s, user, path, now, candidates);
      forall t :: t in s && (!cfg.removeExpired || now <= s[t].createdAt + cfg.lifetime) ==>
        t in issued.store && issued.store[t] == s[t]
  {
  }

  /**
    Issuing files the new row under a token the swept table does not hold, so no
    stored row is overwritten: the table grows by exactly one row, and a
    well-keyed table stays free of shared tokens.
   */
  lemma IssueKeepsTokensUnique(
    cfg: Config, s: Store, user: Authenticatable, path: Option<string>,
    now: int, candidates: seq<string>)
    requires WellKeyed(s)
    requires RandomSource(cfg, candidates)
    requires HasFresh(SweepBeforeIssue(cfg, s, now), candidates)
    ensures var issued := GetAutologinLink(cfg, s, user, path, now, candidates);
      && issued.link.token !in SweepBeforeIssue(cfg, s, now)
      && (forall t :: t in SweepBeforeIssue(cfg, s, now) ==>
            t in issued.store && issued.store[t] == SweepBeforeIssue(cfg, s, now)[t])
      && |issued.store| == |SweepBeforeIssue(cfg, s, now)| + 1
      && TokensUnique(issued.store)
  {
    var issued := GetAutologinLink(cfg, s, user, path, now, candidates);
    WellKeyedTokensUnique(issued.store);
  }

  /** The observations of one worked run, in the order they are made. */
  datatype ScenarioRun = ScenarioRun(
    token: string,
    first: Option<Record>,
    second: Option<Record>,
    afterSweep: Option<Record>)

  /**
    A worked run: length 10, lifetime 60 minutes, counting and sweeping on. User 42
    gets a link to "/dashboard" at minute 0 from a single random draw, the token is
    redeemed twice, then the table is swept at minute 61 and the token redeemed again.
   */
  function DashboardRun(): ScenarioRun
  {
    var cfg := Config(10, 60, true, true, "autologin");
    var draws := ["Ab3dE5gH9k"];
    assert draws[0] !in SweepBeforeIssue(cfg, map[], 0);
    var issued := GetAutologinLink(cfg, map[], Authenticatable(42), Some("/dashboard"), 0, draws);
    var t := issued.link.token;
    var first := Validate(cfg, issued.store, t);
    var second := Validate(cfg, first.store, t);
    var swept := DeleteExpiredTokens(cfg, second.store, 61);
    ScenarioRun(t, first.row, second.row, Validate(cfg, swept, t).row)
  }

  /** In the worked run the first redemption reports count 1, the second count 2, and after the sweep the token is gone. */
  lemma DashboardScenario()
    ensures var run := DashboardRun();
      && run.token == "Ab3dE5gH9k"
      && run.first == Some(Record(42, run.token, Some("/dashboard"), 1, 0))
      && run.second == Some(Record(42, run.token, Some("/dashboard"), 2, 0))
      && run.afterSweep == None
  {
  }
}
