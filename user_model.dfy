/** The token bookkeeping of the User document in `backend/models/User.js`:
    the bounded list of refresh tokens (one per signed-in device) and the
    password-reset token with its expiry. */
module UserModel {
  import opened Common

  /** At most this many refresh tokens are kept. */
  const MaxRefreshTokens: nat := 5

  /** A reset token lives ten minutes, in milliseconds. */
  const ResetTokenLifetime: int := 10 * 60 * 1000

  /** One element of `refreshTokens`; `createdAt` is the time of the push. */
  datatype RefreshToken = RefreshToken(token: string, createdAt: int)

  /** `refreshTokens.some(rt => rt.token === token)`. */
  predicate Holds(s: seq<RefreshToken>, token: string)
  {
    exists k :: 0 <= k < |s| && s[k].token == token
  }

  /** The list after a push and, when it grew past the bound, `slice(-5)`. */
  function Pushed(s: seq<RefreshToken>, e: RefreshToken): (r: seq<RefreshToken>)
    ensures |r| == if |s| + 1 > MaxRefreshTokens then MaxRefreshTokens else |s| + 1
    ensures r == (s + [e])[|s| + 1 - |r|..]
    ensures r[|r| - 1] == e
  {
    var t := s + [e];
    if |t| > MaxRefreshTokens then t[|t| - MaxRefreshTokens..] else t
  }

  /** The list with every entry of `token` filtered out. */
  function Without(s: seq<RefreshToken>, token: string): (r: seq<RefreshToken>)
    ensures |r| <= |s|
    ensures forall x :: x in r <==> x in s && x.token != token
  {
    Filter(s, (rt: RefreshToken) => rt.token != token)
  }

  /** A pushed token is held; of the older entries only the most recent ones
      stay, in their order; a list within the bound stays within it. */
  lemma PushedMeaning(s: seq<RefreshToken>, e: RefreshToken)
    ensures Holds(Pushed(s, e), e.token)
    ensures |s| <= MaxRefreshTokens ==> |Pushed(s, e)| <= MaxRefreshTokens
    ensures |s| < MaxRefreshTokens ==> Pushed(s, e) == s + [e]
    ensures |s| == MaxRefreshTokens ==> Pushed(s, e) == s[1..] + [e]
  {
    var r := Pushed(s, e);
    assert r[|r| - 1].token == e.token;
    if |s| == MaxRefreshTokens {
      assert (s + [e])[1..] == s[1..] + [e];
    }
  }

  /** After the filter no entry of the token is left. */
  lemma WithoutDropsToken(s: seq<RefreshToken>, token: string)
    ensures !Holds(Without(s, token), token)
  {
    var r := Without(s, token);
    forall k | 0 <= k < |r|
      ensures r[k].token != token
    {
      assert r[k] in r;
    }
  }

  /** Filtering twice is filtering once. */
  lemma {:induction false} WithoutIdempotent(s: seq<RefreshToken>, token: string)
    ensures Without(Without(s, token), token) == Without(s, token)
  {
    if s != [] {
      WithoutIdempotent(s[..|s| - 1], token);
      WithoutConcat(s[..|s| - 1], [s[|s| - 1]], token);
      assert s == s[..|s| - 1] + [s[|s| - 1]];
      var w := Without(s[..|s| - 1], token);
      if s[|s| - 1].token != token {
        assert Without([s[|s| - 1]], token) == [s[|s| - 1]];
        WithoutConcat(w, [s[|s| - 1]], token);
      } else {
        assert Without([s[|s| - 1]], token) == [];
        assert Without(s, token) == w;
      }
    }
  }

  /** The filter works entry by entry, so the kept entries keep their order:
      filtering a concatenation concatenates the filtered parts. */
  lemma WithoutConcat(a: seq<RefreshToken>, b: seq<RefreshToken>, token: string)
    ensures Without(a + b, token) == Without(a, token) + Without(b, token)
  {
    FilterConcat(a, b, (rt: RefreshToken) => rt.token != token);
  }

  /** Every entry of the pushed list is the new one or an old one. */
  lemma PushedEntries(s: seq<RefreshToken>, e: RefreshToken)
    ensures forall x :: x in Pushed(s, e) ==> x == e || x in s
  {
    var r := Pushed(s, e);
    forall x | x in r
      ensures x == e || x in s
    {
      var k :| 0 <= k < |r| && r[k] == x;
      var j := |s| + 1 - |r| + k;
      assert x == (s + [e])[j];
    }
  }

  /** Pushing a different token does not make an absent token held. */
  lemma PushedKeepsAbsent(w: seq<RefreshToken>, e: RefreshToken, t: string)
    requires !Holds(w, t) && e.token != t
    ensures !Holds(Pushed(w, e), t)
  {
    var r := Pushed(w, e);
    PushedEntries(w, e);
    forall k | 0 <= k < |r|
      ensures r[k].token != t
    {
      assert r[k] in r;
      if r[k] != e {
        var j :| 0 <= j < |w| && w[j] == r[k];
      }
    }
  }

  /** Refresh-token rotation: after removing the old token and adding the
      new one, the new token is held, and the old one is not unless the two
      are equal (a token signed again within the same second). */
  lemma Rotation(s: seq<RefreshToken>, oldToken: string, e: RefreshToken)
    ensures Holds(Pushed(Without(s, oldToken), e), e.token)
    ensures e.token != oldToken ==> !Holds(Pushed(Without(s, oldToken), e), oldToken)
  {
    PushedMeaning(Without(s, oldToken), e);
    if e.token != oldToken {
      WithoutDropsToken(s, oldToken);
      PushedKeepsAbsent(Without(s, oldToken), e, oldToken);
    }
  }

  class User {
    var refreshTokens: seq<RefreshToken>
    var resetPasswordToken: Option<string>
    var resetPasswordExpire: Option<int>

    ghost predicate Valid()
      reads this
    {
      |refreshTokens| <= MaxRefreshTokens
    }

    constructor ()
      ensures Valid()
      ensures refreshTokens == [] && resetPasswordToken == None && resetPasswordExpire == None
    {
      refreshTokens := [];
      resetPasswordToken := None;
      resetPasswordExpire := None;
    }

    /** `hasRefreshToken`. */
    predicate HasRefreshToken(token: string)
      reads this
    {
      Holds(refreshTokens, token)
    }

    /** `addRefreshToken`: push, then keep the last five. */
    method AddRefreshToken(token: string, now: int)
      requires Valid()
      modifies this
      ensures Valid()
      ensures refreshTokens == Pushed(old(refreshTokens), RefreshToken(token, now))
      ensures HasRefreshToken(token)
      ensures resetPasswordToken == old(resetPasswordToken) && resetPasswordExpire == old(resetPasswordExpire)
    {
      refreshTokens := refreshTokens + [RefreshToken(token, now)];
      if |refreshTokens| > MaxRefreshTokens {
        refreshTokens := refreshTokens[|refreshTokens| - MaxRefreshTokens..];
      }
      PushedMeaning(old(refreshTokens), RefreshToken(token, now));
    }

    /** `removeRefreshToken`. */
    method RemoveRefreshToken(token: string)
      requires Valid()
      modifies this
      ensures Valid()
      ensures refreshTokens == Without(old(refreshTokens), token)
      ensures !HasRefreshToken(token)
      ensures resetPasswordToken == old(resetPasswordToken) && resetPasswordExpire == old(resetPasswordExpire)
    {
      refreshTokens := Filter(refreshTokens, (rt: RefreshToken) => rt.token != token);
      WithoutDropsToken(old(refreshTokens), token);
    }

    /** The rotation of the refresh route: the presented token goes and the
      newly issued one comes. The two may be equal, since a token carries only
      the user id and a time in whole seconds. */
    method RotateRefreshToken(oldToken: string, newToken: string, now: int)
      requires Valid()
      modifies this
      ensures Valid()
      ensures refreshTokens == Pushed(Without(old(refreshTokens), oldToken), RefreshToken(newToken, now))
      ensures HasRefreshToken(newToken)
      ensures newToken != oldToken ==> !HasRefreshToken(oldToken)
      ensures resetPasswordToken == old(resetPasswordToken) && resetPasswordExpire == old(resetPasswordExpire)
    {
      RemoveRefreshToken(oldToken);
      AddRefreshToken(newToken, now);
      Rotation(old(refreshTokens), oldToken, RefreshToken(newToken, now));
    }

    /** Whether a reset request presenting `raw` at time `at` finds this user:
      the stored hash matches and the expiry lies ahead. */
    predicate AcceptsReset(raw: string, hash: string -> string, at: int)
      reads this
    {
      resetPasswordToken == Some(hash(raw)) && resetPasswordExpire.Some? && resetPasswordExpire.value > at
    }

    /** `generatePasswordResetToken`: the random token `raw` and the hash are
      parameters. The hash is stored, and the token is accepted for exactly
      the ten minutes after `now`. */
    method GeneratePasswordResetToken(now: int, raw: string, hash: string -> string) returns (resetToken: string)
      modifies this
      ensures resetToken == raw
      ensures resetPasswordToken == Some(hash(raw)) && resetPasswordExpire == Some(now + ResetTokenLifetime)
      ensures forall at :: now <= at < now + 600000 ==> AcceptsReset(raw, hash, at)
      ensures !AcceptsReset(raw, hash, now + 600000)
      ensures refreshTokens == old(refreshTokens)
    {
      resetPasswordToken := Some(hash(raw));
      resetPasswordExpire := Some(now + 10 * 60 * 1000);
      resetToken := raw;
    }
  }
}
