# Autologin token lifecycle

A Dafny model of the token lifecycle of the `Watson\Autologin\Autologin` service.
The service issues login links and redeems them. A link carries a random token.
The token is stored together with the user it logs in and an optional redirect path.

- **Issuing** (`user`, `to`, `route`, all of which go through `getAutologinLink`):
  - optionally sweep tokens older than the configured lifetime;
  - draw random tokens until one is not stored yet;
  - store `{user_id, token, path}`;
  - return the redemption link for the token.
- **Redeeming** (`validate`): look the token up. When counting is configured, bump
  the row's usage counter. Return the row, or null when the token is unknown.

The model is a functional state machine over an immutable token table
(`Tokens.Store`, a map from token string to `Tokens.Record`). The storage provider
is the abstract contract `Provider`. `FindByToken` returns the stored row, or null
when there is none. `Create` and `DeleteExpiredTokens` are pure functions from table
to table. The source increments the counter by calling `incrementCount()` on the row
that `findByToken` returned, not on the provider. The model treats that call as a
storage update keyed by the token: `Provider.IncrementCount`, also from table to table.
The outside collaborators become explicit inputs:

- the `autologin.*` configuration is a `Config` value;
- the clock is an integer `now`, counted in minutes;
- `Str::random` is the sequence of candidate strings it would produce;
- the URL generator's `to` and `route` are caller-supplied functions from string to URL;
- the redemption link is `Link(routeName, token)`, standing for the generator's
  `route(routeName, token)`.

Modules: `Wrappers` (Option, for null), `Tokens` (the record, the table and its
invariants), `Provider` (the storage contract), `Autologin` (the service) and
`AutologinProperties` (lemmas relating several calls).

## Model

| member | source | states |
|---|---|---|
| Autologin.Validate | src/Autologin.php:93-106 | The result is non-null exactly when the token is stored. No row is ever added or deleted, and expiry is not consulted. An unknown token, or counting switched off, leaves the table unchanged. The returned row is the stored row with the same user, token, path and creation time. Its counter is one higher when counting is on and unchanged otherwise. Every other row is untouched, and the table stays well-keyed. |
| Autologin.FirstFreshIndex | src/Autologin.php:153-155 | When some candidate is unstored, the draw the retry loop stops at is unstored, and every earlier draw was already stored. |
| Autologin.GetAutologinToken | src/Autologin.php:149-158 | The do/while retry loop returns a token the table does not hold. The token has the configured length, and it is the first unstored candidate of the random source. |
| Autologin.DeleteExpiredTokens | src/Autologin.php:165-172 | The sweep keeps a row exactly when `now <= createdAt + lifetime`, i.e. when it is not older than `now - lifetime`. Kept rows are unchanged. |
| Autologin.SweepBeforeIssue | src/Autologin.php:118-121 | With `remove_expired` set, issuing starts from the table minus exactly its expired rows. Otherwise it starts from the whole table. Surviving rows are unchanged. |
| Autologin.GetAutologinLink | src/Autologin.php:116-141 | The issued token is fresh with respect to the swept table and has the configured length. The link uses the configured route name. The table gains exactly that token, with a row for the user's identifier, the given path, counter 0 and creation time `now`. Every swept-table row is unchanged. The table stays well-keyed, meaning every row is filed under the token it carries. |
| Autologin.User | src/Autologin.php:46-49 | Issues a fresh token for the user with a null path. |
| Autologin.To | src/Autologin.php:62-67 | Issues a fresh token for the user whose path is the generator's URL for the given path. |
| Autologin.Route | src/Autologin.php:80-85 | Issues a fresh token for the user whose path is the generator's URL for the named route. |
| Provider.FindByToken | src/Autologin.php:95 | Storage contract: a row is found exactly when the token is stored, and it is the stored row. |
| Provider.Create | src/Autologin.php:130-134 | Storage contract: adds exactly the new token with the given user and path, counter 0 and creation time `now`. Other rows are unchanged. |
| Provider.DeleteExpiredTokens | src/Autologin.php:171 | Storage contract: deletes exactly the rows created strictly before the cutoff. Every other row is kept unchanged. |
| Provider.IncrementCount | src/Autologin.php:99 | Storage contract: the row's counter goes up by one and none of its other fields change. No other row changes and no row is added or removed. |
| AutologinProperties.UnknownTokenHasNoEffect | src/Autologin.php:95-105 | Redeeming an unstored token returns null and leaves the table as it was, so a second redemption gives the same answer. |
| AutologinProperties.CountedRedemption | src/Autologin.php:97-102 | With counting on, redeeming a stored token returns the row with its counter increased by exactly one. The table is the old table with only that row replaced. |
| AutologinProperties.UncountedRedemption | src/Autologin.php:97-102 | With counting off, redeeming a stored token returns the stored row and the table is unchanged. |
| AutologinProperties.RepeatedRedemption | src/Autologin.php:93-106 | Any run of redemptions keeps exactly the same tokens stored. Each row changes only in its counter. With counting on, the counter rises once per redemption of that token. With counting off, it does not move. |
| AutologinProperties.StaysRedeemable | src/Autologin.php:93-106 | A stored token remains redeemable after any run of redemptions. Only a sweep removes it. |
| AutologinProperties.IssueThenValidate | src/Autologin.php:124-134 | Redeeming a just-issued token returns a row with the issued user identifier, path and token. Its counter is 1 with counting on and 0 with counting off. |
| AutologinProperties.IssueKeepsUnexpired | src/Autologin.php:119-121 | With sweeping on, issuing keeps a prior row (other than the new token) exactly when it is not older than the lifetime, and keeps it unchanged. With sweeping off, every prior row survives unchanged. |
| AutologinProperties.IssueKeepsTokensUnique | src/Autologin.php:126-134 | The issued token is not a key of the swept table, so storing it overwrites no row. Every swept row survives unchanged and the table grows by exactly one row. No two rows share a token afterwards. |
| AutologinProperties.DashboardScenario | src/Autologin.php:116-134 | A worked run with length 10, lifetime 60 and counting on. User 42 gets a link to "/dashboard". The first redemption reports count 1 and the second count 2. A sweep at minute 61 makes the token unknown. |

## Left out

- URL construction: `UrlGenerator::to` and `route` (lines 64, 82, 140) belong to the routing framework. They appear only as supplied functions and as the `Link(routeName, token)` value. The `$extra`, `$secure`, `$parameters`, `$absolute` and `$route` arguments are folded into those functions.
- Link failure after storing: `generator->route($routeName, $token)` (line 140) can throw, for an unknown route name, after the row was created at lines 130-134. The token then stays stored and no link is returned. The model always returns a `Link`.
- The sweep's return value (line 171) is dropped: its only caller discards it (line 120), and the model's sweep returns just the table.
- Carbon and the wall clock (line 169): time is an integer number of minutes passed in as `now`. The provider's own database timestamp for `created_at` is modelled as that same `now`.
- `Str::random` (line 154): its randomness and alphanumeric alphabet are not modelled. Candidates are a given sequence whose strings have the configured length.
- Autologin.GetAutologinToken: the real loop never ends when every draw collides. The model therefore requires that some candidate is unstored. It does not model the non-terminating case.
- Provider.DeleteExpiredTokens: the "created strictly before the cutoff" rule belongs to the storage provider, which is not part of this model. It is stated as that provider's contract. So at `now == createdAt + lifetime` a token is kept, and it is deleted from the next minute on.
- The storage provider's persistence (SQL, the storage-assigned `id` column) and `Authenticatable` beyond `getAuthIdentifier`.
- Global `config()` access: replaced by the explicit `Config` value. `length` is a natural number, because a random string cannot have negative length.
- Error paths of the backend (storage failures) and concurrency: the check-then-create race on token uniqueness, lost counter increments, and a sweep racing a redemption. The source is sequential, and atomicity belongs to the storage backend.
- The code rejects no token length and does not bound the number of retries; the model does the same.
