/**
  The storage the token service talks to, as an abstract contract over an
  immutable token table. `FindByToken` returns the row or null; the other
  operations return the table as it is after the call. None of them is
  implemented by the service itself.
 */
module Provider {
  import opened Wrappers
  import opened Tokens

  /** Looks a token up by exact string; `None` when no record carries it. */
  function FindByToken(s: Store, token: string): (r: Option<Record>)
    ensures r.Some? <==> token in s
    ensures r.Some? ==> r.value == s[token]
  {
    if token in s then Some(s[token]) else None
  }

  /**
    Stores a new row for `token`. The counter starts at zero and the creation
    time is the moment of the call.
   */
  function Create(s: Store, userId: UserId, token: string, path: Option<string>, now: int): (r: Store)
    ensures r.Keys == s.Keys + {token}
    ensures r[token].userId == userId && r[token].token == token && r[token].path == path
    ensures r[token].count == 0 && r[token].createdAt == now
    ensures forall t :: t in s && t != token ==> r[t] == s[t]
  {
    s[token := Record(userId, token, path, 0, now)]
  }

  /** Deletes exactly the rows created strictly before `cutoff`; the rest stay as they were. */
  function DeleteExpiredTokens(s: Store, cutoff: int): (r: Store)
    ensures forall t :: t in r <==> t in s && !Expired(s[t], cutoff)
    ensures forall t :: t in r ==> r[t] == s[t]
  {
    map t | t in s && !Expired(s[t], cutoff) :: s[t]
  }

  /**
    Adds one to the counter of the row filed under `token` and touches nothing else.
    The service calls this on the row it found rather than on the provider; the
    row's save is modelled as an update of the table keyed by its token.
   */
  function IncrementCount(s: Store, token: string): (r: Store)
    requires token in s
    ensures r.Keys == s.Keys
    ensures r[token].count == s[token].count + 1
    ensures r[token] == s[token].(count := r[token].count)
    ensures forall t :: t in s && t != token ==> r[t] == s[t]
  {
    s[token := s[token].(count := s[token].count + 1)]
  }
}
