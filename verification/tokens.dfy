/**
  The data model of the autologin token table: one record per issued token,
  filed under the token string it carries.
 */
module Tokens {
  import opened Wrappers

  /** The identifier an authenticatable user reports; opaque to the token lifecycle. */
  type UserId = int

  /**
    One stored autologin row. `path` is the destination to redirect to after a
    successful login (`None` means the configured default destination), `count`
    the number of counted redemptions, `createdAt` the creation time in minutes.
   */
  datatype Record = Record(
    userId: UserId,
    token: string,
    path: Option<string>,
    count: nat,
    createdAt: int)

  /** The token table, looked up by exact token string. */
  type Store = map<string, Record>

  /** Every record is filed under the token it carries. */
  predicate WellKeyed(s: Store)
  {
    forall t :: t in s ==> s[t].token == t
  }

  /** No two stored records carry the same token. */
  predicate TokensUnique(s: Store)
  {
    forall t1, t2 :: t1 in s && t2 in s && s[t1].token == s[t2].token ==> t1 == t2
  }

  /** A record is expired with respect to `cutoff` when it was created strictly before it. */
  predicate Expired(rec: Record, cutoff: int)
  {
    rec.createdAt < cutoff
  }

  /** Filing records under their own tokens is what makes tokens unique. */
  lemma WellKeyedTokensUnique(s: Store)
    requires WellKeyed(s)
    ensures TokensUnique(s)
  {
  }
}
