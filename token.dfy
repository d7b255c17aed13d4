/** The authorisation-token cache of `get_token`: the module globals `token` and
    `_token_time`, the rule that decides between reusing and refetching, and the extraction
    of the token from the fetched page.  The clock readings and the page text are inputs. */
module Token {
  import opened Wrappers
  import opened Seqs
  import opened Exceptions

  /** `EXPIRE_TIME`, in seconds. */
  const ExpireTime: real := 3550.0

  /** The text in front of the token on the page: `token: "`. */
  const TokenPrefix: string := "token: \""

  // ----- re.findall('token: "(.*?)"', page)[0] -----

  /** The first capture of `token: "(.*?)"`: the leftmost `token: "` followed, later, by a
      closing quote; the lazy group stops at the first such quote. */
  function ExtractToken(page: string): Option<string> {
    match FirstOccurrence(page, TokenPrefix)
    case None => None
    case Some(i) =>
      var start := i + |TokenPrefix|;
      match FirstOccurrenceFrom(page, "\"", start)
      case None => None
      case Some(k) => Some(page[start..k])
  }

  /** A token found is quote-free and stands between `token: "` and a quote on the page. */
  lemma ExtractTokenSound(page: string)
    ensures ExtractToken(page).Some? ==>
      var t := ExtractToken(page).value;
      '"' !in t && exists i :: OccursAt(page, TokenPrefix + t + "\"", i)
  {
    if ExtractToken(page).Some? {
      var i := FirstOccurrence(page, TokenPrefix).value;
      var start := i + |TokenPrefix|;
      var k := FirstOccurrenceFrom(page, "\"", start).value;
      var t := page[start..k];
      forall j | 0 <= j < |t|
        ensures t[j] != '"'
      {
        assert !OccursAt(page, "\"", start + j);
        assert page[start + j..start + j + 1] == [t[j]];
      }
      assert page[i..k + 1] == page[i..start] + page[start..k] + page[k..k + 1];
      assert OccursAt(page, TokenPrefix + t + "\"", i);
    }
  }

  /** A page holding `token: "T"`, with no `token: "` earlier and no quote in T, yields T. */
  lemma ExtractTokenOf(pre: string, t: string, post: string)
    requires forall j :: 0 <= j < |pre| ==> !OccursAt(pre + TokenPrefix + (t + "\"" + post), TokenPrefix, j)
    requires '"' !in t
    ensures ExtractToken(pre + TokenPrefix + (t + "\"" + post)) == Some(t)
  {
    var rest := t + "\"" + post;
    var page := pre + TokenPrefix + rest;
    FirstOccurrenceAfterPrefix(pre, TokenPrefix, rest);
    var start := |pre| + |TokenPrefix|;
    assert page[start..] == rest;
    forall j | start <= j < start + |t|
      ensures !OccursAt(page, "\"", j)
    {
      assert page[j] == t[j - start];
      assert page[j..j + 1] == [t[j - start]];
    }
    assert OccursAt(page, "\"", start + |t|) by {
      assert page[start + |t|..start + |t| + 1] == rest[|t|..|t| + 1] == "\"";
    }
    var k := FirstOccurrenceFrom(page, "\"", start);
    assert k == Some(start + |t|) by {
      assert k.Some?;
      assert !(k.value < start + |t|) && !(start + |t| < k.value);
    }
    assert page[start..start + |t|] == t;
  }

  /** A page without `token: "` yields no token: `findall` returns `[]` and `[0]` fails. */
  lemma ExtractTokenMissing(page: string)
    requires forall j :: !OccursAt(page, TokenPrefix, j)
    ensures ExtractToken(page) == None
  {
  }

  // ----- the cache rule -----

  /** The two module globals. */
  datatype CacheState = CacheState(token: Option<string>, tokenTime: Option<real>)

  /** The reuse condition, as written: a recorded time, `_token_time - now < EXPIRE_TIME`,
      and no forced refresh. */
  predicate Reuses(s: CacheState, forceRefresh: bool, now: real) {
    s.tokenTime.Some? && s.tokenTime.value - now < ExpireTime && !forceRefresh
  }

  /** One call of `get_token`: the new globals and the returned token or raised exception.
      `now` is the first clock reading, `fetchTime` the second, and `page` the fetched page
      (`None` when the request fails). */
  function TokenStep(s: CacheState, forceRefresh: bool, now: real, fetchTime: real,
                     page: Option<string>): (CacheState, Result<Option<string>, Exc>)
  {
    if Reuses(s, forceRefresh, now) then (s, Success(s.token))
    else
      var fetching := s.(tokenTime := Some(fetchTime));
      match page
      case None => (fetching, Failure(RequestError))
      case Some(p) =>
        match ExtractToken(p)
        case None => (fetching, Failure(IndexError))
        case Some(t) => (fetching.(token := Some(t)), Success(Some(t)))
  }

  /** The globals as an object whose `GetToken` updates them in place. */
  class TokenCache {
    var token: Option<string>
    var tokenTime: Option<real>

    function State(): CacheState
      reads this
    {
      CacheState(token, tokenTime)
    }

    /** The module's initial state: no token and no recorded time. */
    constructor()
      ensures token == None && tokenTime == None
    {
      token := None;
      tokenTime := None;
    }

    /** `get_token(force_refresh)`. */
    method GetToken(forceRefresh: bool, now: real, fetchTime: real, page: Option<string>)
      returns (r: Result<Option<string>, Exc>)
      modifies this
      ensures (State(), r) == TokenStep(old(State()), forceRefresh, now, fetchTime, page)
    {
      if tokenTime.Some? && tokenTime.value - now < ExpireTime && !forceRefresh {
        return Success(token);
      }
      tokenTime := Some(fetchTime);
      if page.None? {
        return Failure(RequestError);
      }
      var found := ExtractToken(page.value);
      if found.None? {
        return Failure(IndexError);
      }
      token := found;
      return Success(token);
    }
  }

  // ----- properties -----

  /** A reusing call returns the cached token and changes neither global. */
  lemma ReuseKeepsState(s: CacheState, now: real, fetchTime: real, page: Option<string>)
    requires s.tokenTime.Some? && s.tokenTime.value - now < ExpireTime
    ensures TokenStep(s, false, now, fetchTime, page) == (s, Success(s.token))
  {
  }

  /** Every call that does not reuse the token (a forced refresh, no recorded time, or a
      recorded time failing the comparison) records the second clock reading before the
      fetch, so the time is updated even when the request fails or the page has no token;
      the token changes only when one is found. */
  lemma RefreshRecordsTime(s: CacheState, forceRefresh: bool, now: real, fetchTime: real,
                           page: Option<string>)
    requires !Reuses(s, forceRefresh, now)
    ensures var (s', r) := TokenStep(s, forceRefresh, now, fetchTime, page);
      && s'.tokenTime == Some(fetchTime)
      && (page.None? ==> r == Failure(RequestError) && s'.token == s.token)
      && (page.Some? && ExtractToken(page.value).None? ==> r == Failure(IndexError) && s'.token == s.token)
      && (page.Some? && ExtractToken(page.value).Some? ==>
            r == Success(ExtractToken(page.value)) && s'.token == ExtractToken(page.value))
  {
  }

  /** One call's inputs. */
  datatype Call = Call(forceRefresh: bool, now: real, fetchTime: real, page: Option<string>)

  /** The globals after a sequence of calls, and each call's outcome. */
  function Run(s: CacheState, calls: seq<Call>): (out: (CacheState, seq<Result<Option<string>, Exc>>))
    ensures |out.1| == |calls|
    decreases |calls|
  {
    if |calls| == 0 then (s, [])
    else
      var c := calls[0];
      var (s1, r) := TokenStep(s, c.forceRefresh, c.now, c.fetchTime, c.page);
      var (s2, rs) := Run(s1, calls[1..]);
      (s2, [r] + rs)
  }

  /** Once a time `t` is recorded, every later non-forced call made while
      `t - now < EXPIRE_TIME` returns the cached token and changes nothing. */
  lemma {:induction false} CachedWhileFresh(s: CacheState, calls: seq<Call>)
    requires s.tokenTime.Some?
    requires forall i :: 0 <= i < |calls| ==>
      !calls[i].forceRefresh && s.tokenTime.value - calls[i].now < ExpireTime
    ensures Run(s, calls).0 == s
    ensures forall i :: 0 <= i < |calls| ==> Run(s, calls).1[i] == Success(s.token)
  {
    if |calls| > 0 {
      var c := calls[0];
      assert TokenStep(s, c.forceRefresh, c.now, c.fetchTime, c.page) == (s, Success(s.token));
      CachedWhileFresh(s, calls[1..]);
      forall i | 0 <= i < |calls|
        ensures Run(s, calls).1[i] == Success(s.token)
      {
        if i > 0 {
          assert Run(s, calls).1[i] == Run(s, calls[1..]).1[i - 1];
        }
      }
    }
  }

  /** With a clock that never reads earlier than the recorded time, the comparison
      `_token_time - now < EXPIRE_TIME` always holds: the cached token is never refetched
      unless a refresh is forced. */
  lemma {:induction false} NeverExpires(s: CacheState, calls: seq<Call>)
    requires s.tokenTime.Some?
    requires forall i :: 0 <= i < |calls| ==> !calls[i].forceRefresh && s.tokenTime.value <= calls[i].now
    ensures Run(s, calls).0 == s
    ensures forall i :: 0 <= i < |calls| ==> Run(s, calls).1[i] == Success(s.token)
  {
    CachedWhileFresh(s, calls);
  }
}
