/**
 * Properties that relate several cache operations: what a read returns in terms of the
 * store, what the self-healing delete leaves behind, that a read is stable, that a write is
 * read back, and what the mixed clock units of the write path do.
 */
module CacheProperties {
  import opened Wrappers
  import opened Text
  import opened Schema
  import opened Worker
  import opened CacheRules
  import opened Cache

  const NoReadFaults := ReadFaults(None, None, None)
  const NoWriteFaults := WriteFaults(None, None)

  /** One step of a query: the last match of a type either is the final credential or was already the last match before it. */
  lemma LastMatchStep(s: seq<Credential>, q: CredentialQuery, t: CredentialType)
    requires |s| > 0
    ensures var c := s[|s| - 1];
            LastOfType(Query(s, q), t)
            == if Matches(c, q) && c.credentialType == t then Some(c) else LastOfType(Query(s[..|s| - 1], q), t)
  {
    var init, c := s[..|s| - 1], s[|s| - 1];
    if Matches(c, q) {
      assert Query(s, q) == Query(init, q) + [c];
      LastOfTypeAppend(Query(init, q), c, t);
    } else {
      assert Query(s, q) == Query(init, q) + [];
      assert Query(init, q) + [] == Query(init, q);
    }
  }

  /** Removing credentials of other types does not change the last match of type `t`. */
  lemma {:induction false} LastMatchSurvivesOtherRemovals(s: seq<Credential>, removed: CredentialQuery, q: CredentialQuery, t: CredentialType)
    requires t !in removed.types
    ensures LastOfType(Query(RemoveMatching(s, removed), q), t) == LastOfType(Query(s, q), t)
  {
    if |s| > 0 {
      var init, c := s[..|s| - 1], s[|s| - 1];
      var kept := RemoveMatching(init, removed);
      LastMatchSurvivesOtherRemovals(init, removed, q, t);
      LastMatchStep(s, q, t);
      if Matches(c, removed) {
        assert RemoveMatching(s, removed) == kept;
      } else {
        var after := kept + [c];
        assert RemoveMatching(s, removed) == after;
        assert after[..|after| - 1] == kept;
        LastMatchStep(after, q, t);
      }
    }
  }

  lemma WriteOneLastMatch(s: seq<Credential>, c: Credential, q: CredentialQuery, t: CredentialType)
    ensures c.credentialType == t && Matches(c, q) ==> LastOfType(Query(WriteOne(s, c), q), t) == Some(c)
    ensures c.credentialType != t ==> LastOfType(Query(WriteOne(s, c), q), t) == LastOfType(Query(s, q), t)
  {
    var after := WriteOne(s, c);
    var kept := RemoveMatching(s, SlotOf(c));
    assert after[..|after| - 1] == kept by {
      assert after == kept + [c];
    }
    LastMatchStep(after, q, t);
    if c.credentialType != t {
      LastMatchSurvivesOtherRemovals(s, SlotOf(c), q, t);
    }
  }

  /** A read finds something exactly when the key is complete, the store answers, and the last
      stored access token under the key is valid or a refresh token is stored under it. */
  lemma ReadFoundIff(p: AuthParameters, s: Store, now: int, f: ReadFaults)
    ensures var found := Query(s.credentials, ReadQuery(p));
            ReadCache(p, s, now, f).outcome.found <==>
              && ReadKeyComplete(p) && f.readCredentials.None?
              && ((LastOfType(found, AccessToken).Some? && IsAccessTokenValid(LastOfType(found, AccessToken).value, now))
                  || LastOfType(found, RefreshToken).Some?)
  {
  }

  /** The tokens a successful read returns are the last stored ones of each type under the key. */
  lemma ReadReturnsLatest(p: AuthParameters, s: Store, now: int, f: ReadFaults)
    requires ReadCache(p, s, now, f).outcome.found
    ensures var found := Query(s.credentials, ReadQuery(p));
            var tokens := ReadCache(p, s, now, f).outcome.tokens.value;
            && tokens.idToken == RawSecret(LastOfType(found, IdToken))
            && (tokens.accessToken.Some? ==> tokens.accessToken == LastOfType(found, AccessToken))
            && (tokens.accessToken.None? ==> tokens.refreshToken == LastOfType(found, RefreshToken))
  {
  }

  /**
   * The self-healing delete happens exactly when the last access token under the key has
   * expired and the delete succeeds; afterwards no access token under the key is left.
   */
  lemma ReadDeletesExactlyExpired(p: AuthParameters, s: Store, now: int, f: ReadFaults)
    ensures var found := Query(s.credentials, ReadQuery(p));
            var expired := && ReadKeyComplete(p) && f.readCredentials.None?
                           && LastOfType(found, AccessToken).Some?
                           && !IsAccessTokenValid(LastOfType(found, AccessToken).value, now);
            var r := ReadCache(p, s, now, f);
            && (r.store != s <==> expired && f.deleteAccessToken.None?)
            && (r.store != s ==> forall c :: c in r.store.credentials ==> !Matches(c, AccessTokenQuery(p)))
  {
    var found := Query(s.credentials, ReadQuery(p));
    var at := LastOfType(found, AccessToken);
    if ReadKeyComplete(p) && f.readCredentials.None? && at.Some? && f.deleteAccessToken.None? {
      assert Matches(at.value, AccessTokenQuery(p));
      assert at.value !in RemoveMatching(s.credentials, AccessTokenQuery(p));
    }
  }

  /**
   * A second read at the same time sees what the first one left and answers the same,
   * without deleting anything more, whether or not the first delete went through.
   */
  lemma ReadIsStable(p: AuthParameters, s: Store, now: int, f: ReadFaults)
    ensures var r := ReadCache(p, s, now, f);
            ReadCache(p, r.store, now, f) == r
  {
    if f.deleteAccessToken.None? {
      ReadIsStableWhenDeleted(p, s, now, f);
    } else {
      assert ReadCache(p, s, now, f).store == s;
    }
  }

  /** The case where the first read's delete, if it makes one, goes through. */
  lemma ReadIsStableWhenDeleted(p: AuthParameters, s: Store, now: int, f: ReadFaults)
    requires f.deleteAccessToken.None?
    ensures var r := ReadCache(p, s, now, f);
            ReadCache(p, r.store, now, f) == r
  {
    var r := ReadCache(p, s, now, f);
    if r.store != s {
      var healed := r.store.credentials;
      assert healed == RemoveMatching(s.credentials, AccessTokenQuery(p));
      var rq := ReadQuery(p);
      LastMatchSurvivesOtherRemovals(s.credentials, AccessTokenQuery(p), rq, RefreshToken);
      LastMatchSurvivesOtherRemovals(s.credentials, AccessTokenQuery(p), rq, IdToken);
      var again := Query(healed, rq);
      forall i | 0 <= i < |again|
        ensures again[i].credentialType != AccessToken
      {
        assert again[i] in again;
      }
    }
  }

  /** After the refresh-token delete, no read returns a refresh token. */
  lemma ReadAfterRefreshTokenDelete(p: AuthParameters, s: Store, now: int, f: ReadFaults)
    ensures var r := ReadCache(p, DeleteRefreshToken(p, s, None), now, f);
            r.outcome.found ==> r.outcome.tokens.value.refreshToken.None?
  {
    var r := ReadCache(p, DeleteRefreshToken(p, s, None), now, f);
    if r.outcome.found && r.outcome.tokens.value.refreshToken.Some? {
      var rt := r.outcome.tokens.value.refreshToken.value;
      assert Matches(rt, RefreshTokenQuery(p));
      assert false;
    }
  }

  /**
   * The write path stamps `cachedAt` with the clock in ticks but checks validity against the
   * clock in seconds. Whenever the tick count exceeds the second count (as it does for any
   * real date), the new access token counts as "living in the future" and is never written.
   */
  lemma TickStampedAccessTokenIsNeverWritten(p: AuthParameters, tr: TokenResponse, target: string, nowTicks: int, nowSeconds: int)
    requires nowSeconds < nowTicks
    ensures LastOfType(CredentialBatch(p, tr, target, nowTicks, nowSeconds), AccessToken).None?
  {
  }

  /**
   * A valid access token stored alone under the exact read key, in a store with no accounts,
   * is read back with no refresh token and no account.
   */
  lemma StoredAccessTokenIsRead(p: AuthParameters, at: Credential, now: int)
    requires ReadKeyComplete(p)
    requires at.credentialType == AccessToken && Matches(at, ReadQuery(p))
    requires IsAccessTokenValid(at, now)
    ensures var r := ReadCache(p, Store(WriteAll([], [at]), [], []), now, NoReadFaults);
            && r.outcome.found
            && r.outcome.tokens.value.accessToken == Some(at)
            && r.outcome.tokens.value.refreshToken.None?
            && r.outcome.account.None?
  {
    var stored := WriteAll([], [at]);
    assert [at][..0] == [];
    assert WriteAll([], []) == [];
    assert stored == WriteOne(WriteAll([], [at][..0]), [at][0]);
    WriteOneLastMatch([], at, ReadQuery(p), AccessToken);
    assert LastOfType(Query(stored, ReadQuery(p)), AccessToken) == Some(at);
    ReadHit(p, Store(stored, [], []), now);
  }

  /** The batch of a write whose key is the read key is what that read's scan finds last. */
  lemma BatchReadBack(p: AuthParameters, tr: TokenResponse, cachedAt: int, writeNow: int, credentials: seq<Credential>)
    requires p.accountId == GetHomeAccountId(tr)
    requires tr.accessToken.Some?
    requires IsAccessTokenValid(StampedAccessToken(p, tr, ReadTarget(p), cachedAt), writeNow)
    ensures var found := Query(WriteAll(credentials, CredentialBatch(p, tr, ReadTarget(p), cachedAt, writeNow)), ReadQuery(p));
            && LastOfType(found, AccessToken) == Some(StampedAccessToken(p, tr, ReadTarget(p), cachedAt))
            && (!tr.idToken.isEmpty ==> LastOfType(found, IdToken) == Some(StampedIdToken(p, tr, cachedAt)))
  {
    var target := ReadTarget(p);
    var at := StampedAccessToken(p, tr, target, cachedAt);
    var rq := ReadQuery(p);
    var head := AsSeq(RefreshPart(p, tr, cachedAt));
    var batch := CredentialBatch(p, tr, target, cachedAt, writeNow);
    var before := WriteAll(credentials, head);
    var mid := WriteOne(before, at);
    assert WriteAll(credentials, head + [at]) == mid by {
      assert (head + [at])[..|head|] == head;
    }
    WriteOneLastMatch(before, at, rq, AccessToken);
    if !tr.idToken.isEmpty {
      var id := StampedIdToken(p, tr, cachedAt);
      assert WriteAll(credentials, batch) == WriteOne(mid, id) by {
        assert batch == head + [at] + [id];
        assert batch[..|batch| - 1] == head + [at];
      }
      WriteOneLastMatch(mid, id, rq, AccessToken);
      WriteOneLastMatch(mid, id, rq, IdToken);
    } else {
      assert batch == head + [at] by {
        assert batch == head + [at] + [];
      }
    }
  }

  /**
   * A read hit: when the last stored access token under a complete key is valid, a fault-free
   * read returns it with the last id token and the stored account, and changes nothing.
   */
  lemma ReadHit(p: AuthParameters, s: Store, now: int)
    requires ReadKeyComplete(p)
    requires var at := LastOfType(Query(s.credentials, ReadQuery(p)), AccessToken);
             at.Some? && IsAccessTokenValid(at.value, now)
    ensures var found := Query(s.credentials, ReadQuery(p));
            ReadCache(p, s, now, NoReadFaults) ==
              ReadStep(ReadOutcome(true, Some(CachedTokens(RawSecret(LastOfType(found, IdToken)), LastOfType(found, AccessToken), None)),
                                   FindAccount(s.accounts, AccountKey(p))),
                       s)
  {
    var found := Query(s.credentials, ReadQuery(p));
    assert LastOfType(found, AccessToken).value in found;
  }

  /**
   * Write then read: when the read key is the write's key (the request's account id is the
   * derived home account id and the granted scopes join to the requested target) and the new
   * access token is valid at both clocks, a fault-free read returns that access token, the
   * id token written beside it and the account written, and deletes nothing.
   */
  lemma WriteThenRead(p: AuthParameters, tr: TokenResponse, cachedAt: int, writeNow: int, readNow: int, s: Store)
    requires WriteKeyComplete(p, tr, ReadTarget(p))
    requires p.accountId == GetHomeAccountId(tr)
    requires tr.accessToken.Some?
    requires IsAccessTokenValid(StampedAccessToken(p, tr, ReadTarget(p), cachedAt), writeNow)
    requires IsAccessTokenValid(StampedAccessToken(p, tr, ReadTarget(p), cachedAt), readNow)
    ensures var w := WriteCache(p, tr, ReadTarget(p), cachedAt, writeNow, s, NoWriteFaults);
            var r := ReadCache(p, w.store, readNow, NoReadFaults);
            && r.outcome.found
            && r.outcome.tokens.value.accessToken == Some(StampedAccessToken(p, tr, ReadTarget(p), cachedAt))
            && r.outcome.tokens.value.accessToken.value.secret == tr.accessToken.value
            && r.outcome.tokens.value.refreshToken.None?
            && (!tr.idToken.isEmpty ==> r.outcome.tokens.value.idToken == Some(tr.idToken.raw))
            && r.outcome.account == w.account
            && r.store == w.store
  {
    var w := WriteCache(p, tr, ReadTarget(p), cachedAt, writeNow, s, NoWriteFaults);
    assert w.store.credentials == WriteAll(s.credentials, CredentialBatch(p, tr, ReadTarget(p), cachedAt, writeNow));
    assert w.store.accounts == PutAccount(s.accounts, DerivedAccount(p, tr));
    BatchReadBack(p, tr, cachedAt, writeNow, s.credentials);
    assert AccountSlot(DerivedAccount(p, tr)) == AccountKey(p);
    ReadHit(p, w.store, readNow);
  }
}
