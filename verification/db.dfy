/** `_ensure_asyncpg` of `app/core/db.py`: any PostgreSQL URL rewritten to
    the asyncpg driver's scheme, with `sslmode=require` added to its query
    when the query names no `sslmode`.  The query is a map from parameter to
    value; how `urlencode` orders and escapes it is not modelled. */
module Db {
  import opened Common

  const Postgres: string := "postgres://"
  const Postgresql: string := "postgresql://"
  const Psycopg2: string := "postgresql+psycopg2://"
  const Asyncpg: string := "postgresql+asyncpg://"

  // ---------------------------------------------------------------------
  // The scheme
  // ---------------------------------------------------------------------

  /** Where `p` first occurs in `s`, if it does. */
  function Find(s: string, p: string): (r: Option<nat>)
    ensures r.Some? ==> r.value + |p| <= |s| && p <= s[r.value..]
    ensures r.Some? ==> forall i | 0 <= i < r.value :: !(p <= s[i..])
    ensures r.None? ==> forall i | 0 <= i <= |s| :: !(p <= s[i..])
    decreases |s|
  {
    if p <= s then Some(0)
    else if s == [] then None
    else
      var rest := Find(s[1..], p);
      assert forall i | 1 <= i <= |s| :: s[i..] == s[1..][i - 1..];
      if rest.Some? then Some(rest.value + 1) else None
  }

  /** `s.split(p, 1)[-1]`: the text after the first `p`, or all of `s`. */
  function AfterFirst(s: string, p: string): (r: string)
    requires p != []
    ensures |r| <= |s|
  {
    var k := Find(s, p);
    if k.Some? then s[k.value + |p|..] else s
  }

  /** The three scheme steps: postgres:// and postgresql+psycopg2:// become
      postgresql://, and a URL not yet on postgresql+asyncpg:// is put on it,
      keeping what follows the first "postgresql://", or all of it. */
  function NormalizeScheme(url: string): (r: string)
  {
    var u1 := if StartsWith(url, Postgres) then Postgresql + url[|Postgres|..] else url;
    var u2 := if StartsWith(u1, Psycopg2) then Postgresql + u1[|Psycopg2|..] else u1;
    if !StartsWith(u2, Asyncpg) then Asyncpg + AfterFirst(u2, Postgresql) else u2
  }

  /** Every URL comes out on the asyncpg scheme. */
  lemma SchemeIsAsyncpg(url: string)
    ensures StartsWith(NormalizeScheme(url), Asyncpg)
  {
  }

  /** A URL already on the asyncpg scheme is left as it is. */
  lemma AsyncpgKept(url: string)
    requires StartsWith(url, Asyncpg)
    ensures NormalizeScheme(url) == url
  {
    assert !StartsWith(url, Postgres) by {
      assert url[8] != Postgres[8];
    }
    assert !StartsWith(url, Psycopg2) by {
      assert url[11] != Psycopg2[11];
    }
  }

  /** "postgresql://" at the very start is found there. */
  lemma AfterLeadingPostgresql(rest: string)
    ensures AfterFirst(Postgresql + rest, Postgresql) == rest
  {
    assert Postgresql <= Postgresql + rest;
  }

  /** postgres://, postgresql:// and postgresql+psycopg2:// keep everything
      after their scheme. */
  lemma KnownSchemesKeepRemainder(url: string)
    ensures StartsWith(url, Postgres) ==> NormalizeScheme(url) == Asyncpg + url[|Postgres|..]
    ensures StartsWith(url, Postgresql) ==> NormalizeScheme(url) == Asyncpg + url[|Postgresql|..]
    ensures StartsWith(url, Psycopg2) ==> NormalizeScheme(url) == Asyncpg + url[|Psycopg2|..]
  {
    if StartsWith(url, Postgres) {
      AfterLeadingPostgresql(url[|Postgres|..]);
      var u1 := Postgresql + url[|Postgres|..];
      assert !StartsWith(u1, Psycopg2) by { assert u1[10] != Psycopg2[10]; }
      assert !StartsWith(u1, Asyncpg) by { assert u1[10] != Asyncpg[10]; }
    }
    if StartsWith(url, Postgresql) {
      assert url == Postgresql + url[|Postgresql|..];
      AfterLeadingPostgresql(url[|Postgresql|..]);
      assert !StartsWith(url, Postgres) by { assert url[8] != Postgres[8]; }
      assert !StartsWith(url, Psycopg2) by { assert url[10] != Psycopg2[10]; }
      assert !StartsWith(url, Asyncpg) by { assert url[10] != Asyncpg[10]; }
    }
    if StartsWith(url, Psycopg2) {
      AfterLeadingPostgresql(url[|Psycopg2|..]);
      var u2 := Postgresql + url[|Psycopg2|..];
      assert !StartsWith(url, Postgres) by { assert url[8] != Postgres[8]; }
      assert !StartsWith(u2, Asyncpg) by { assert u2[10] != Asyncpg[10]; }
    }
  }

  /** A URL with no "postgresql://" anywhere in it, and not on one of the
      known schemes, is prefixed whole: "mysql://x" becomes
      "postgresql+asyncpg://mysql://x". */
  lemma ForeignPrefixedWhole(url: string)
    requires !StartsWith(url, Postgres) && !StartsWith(url, Psycopg2) && !StartsWith(url, Asyncpg)
    requires forall i | 0 <= i <= |url| :: !(Postgresql <= url[i..])
    ensures NormalizeScheme(url) == Asyncpg + url
  {
  }

  /** Text before the first "postgresql://" is dropped: "x+postgresql://h"
      becomes "postgresql+asyncpg://h". */
  lemma TextBeforePostgresqlDropped(head: string, rest: string)
    requires forall i | 0 <= i < |head| :: !(Postgresql <= (head + Postgresql + rest)[i..])
    requires !StartsWith(head + Postgresql + rest, Postgres) && !StartsWith(head + Postgresql + rest, Psycopg2) &&
             !StartsWith(head + Postgresql + rest, Asyncpg)
    ensures NormalizeScheme(head + Postgresql + rest) == Asyncpg + rest
  {
    var url := head + Postgresql + rest;
    assert url[|head|..] == Postgresql + rest;
    var k := Find(url, Postgresql);
    assert k.Some?;
    assert k.value == |head|;
  }

  /** Normalising twice is normalising once. */
  lemma SchemeIdempotent(url: string)
    ensures NormalizeScheme(NormalizeScheme(url)) == NormalizeScheme(url)
  {
    SchemeIsAsyncpg(url);
    AsyncpgKept(NormalizeScheme(url));
  }

  // ---------------------------------------------------------------------
  // The query and the whole URL
  // ---------------------------------------------------------------------

  /** `if "sslmode" not in q: q["sslmode"] = "require"`. */
  function WithSslMode(q: map<string, string>): (r: map<string, string>)
  {
    if "sslmode" in q then q else q["sslmode" := "require"]
  }

  /** The query always names an sslmode afterwards: the one it had, or
      "require"; every other parameter is kept as it was. */
  lemma SslModeDefault(q: map<string, string>)
    ensures var r := WithSslMode(q);
      && "sslmode" in r
      && r["sslmode"] == (if "sslmode" in q then q["sslmode"] else "require")
      && r.Keys == q.Keys + {"sslmode"}
      && forall k | k in q && k != "sslmode" :: r[k] == q[k]
  {
  }

  /** A URL split the way `urlparse` and `urlunparse` see it here: everything
      but the query, and the query's parameters. */
  datatype DbUrl = Empty | Url(rest: string, query: map<string, string>)

  /** `_ensure_asyncpg` on a URL given as its text without the query, and the
      query's parameters; the empty URL is returned unchanged. */
  function EnsureAsyncpg(url: string, query: map<string, string>): (r: DbUrl)
  {
    if url == [] && query == map[] then Empty
    else Url(NormalizeScheme(url), WithSslMode(query))
  }

  /** The empty URL comes back as it is; anything else comes back on the
      asyncpg scheme with an sslmode, and normalising the result again does
      not change it. */
  lemma EnsureAsyncpgMeaning(url: string, query: map<string, string>)
    ensures var r := EnsureAsyncpg(url, query);
      && (r.Empty? <==> url == [] && query == map[])
      && (r.Url? ==> StartsWith(r.rest, Asyncpg) && "sslmode" in r.query)
      && (r.Url? ==> EnsureAsyncpg(r.rest, r.query) == r)
  {
    if url != [] || query != map[] {
      SchemeIsAsyncpg(url);
      SchemeIdempotent(url);
    }
  }
}
