/**
 * The Redis server as the portfolio repository uses it: JSON documents under
 * string keys, sorted sets, and whether the server answers at all. JSON is an
 * abstract encode/decode pair: a stored document is the value it encodes, or
 * bytes that do not decode.
 */
module Cache {
  import opened Wrappers
  import opened Entities
  import Ranking

  /** A cached JSON document. */
  datatype Payload =
    | TemplatesJson(templates: seq<Template>)
    | PortfoliosJson(portfolios: seq<Portfolio>)
    | Garbled(raw: string)

  /** `up` is false while the server cannot be reached: every command then fails. */
  datatype Redis = Redis(strings: map<string, Payload>, zsets: map<string, Ranking.ZSet>, up: bool)

  datatype CacheError = Unreachable | Nil | UnmarshalFailed

  function EncodeTemplates(ts: seq<Template>): Payload {
    TemplatesJson(ts)
  }

  function DecodeTemplates(p: Payload): Option<seq<Template>> {
    if p.TemplatesJson? then Some(p.templates) else None
  }

  function EncodePortfolios(ps: seq<Portfolio>): Payload {
    PortfoliosJson(ps)
  }

  function DecodePortfolios(p: Payload): Option<seq<Portfolio>> {
    if p.PortfoliosJson? then Some(p.portfolios) else None
  }

  /** The key of the cached list of all templates. */
  const TemplatesKey: string := "templates"

  /** The key of the cached list of one user's portfolios. */
  function PortfoliosKey(openid: string): string {
    "portfolios:" + openid
  }

  /** Different users' lists live under different keys, none of them the templates key. */
  lemma PortfoliosKeysAreSeparate(a: string, b: string)
    ensures PortfoliosKey(a) != TemplatesKey
    ensures PortfoliosKey(a) == PortfoliosKey(b) ==> a == b
  {
    assert PortfoliosKey(a)[0] == 'p' != TemplatesKey[0];
    if PortfoliosKey(a) == PortfoliosKey(b) {
      assert a == PortfoliosKey(a)[11..];
      assert b == PortfoliosKey(b)[11..];
    }
  }

  /** `GET key`. */
  function Get(c: Redis, key: string): Result<Payload, CacheError> {
    if !c.up then Err(Unreachable)
    else if key !in c.strings then Err(Nil)
    else Ok(c.strings[key])
  }

  datatype Written = Written(cache: Redis, err: Option<CacheError>)

  /** `SET key value 0`: stores the document with no expiry. */
  function Set(c: Redis, key: string, v: Payload): Written {
    if !c.up then Written(c, Some(Unreachable))
    else Written(c.(strings := c.strings[key := v]), None)
  }

  /** `GET` followed by `json.Unmarshal`. */
  function ReadCached<T>(c: Redis, key: string, decode: Payload -> Option<seq<T>>): Result<seq<T>, CacheError> {
    match Get(c, key)
    case Err(e) => Err(e)
    case Ok(p) =>
      match decode(p)
      case None => Err(UnmarshalFailed)
      case Some(v) => Ok(v)
  }

  /** The cache holds a decodable document under `key`. */
  predicate Hit<T>(c: Redis, key: string, decode: Payload -> Option<seq<T>>) {
    ReadCached(c, key, decode).Ok?
  }

  /** The value of a cache-aside read (None: the request fails) and the cache afterwards. */
  datatype Fetched<T> = Fetched(value: Option<seq<T>>, cache: Redis)

  /**
   * The cache-aside read every list endpoint performs: answer from the cache when
   * it holds a decodable document; otherwise answer with what the database returns
   * (`fromDb`, None when the query failed) and try to store that under the same key,
   * ignoring a failed write.
   */
  function ReadThrough<T>(c: Redis, key: string, decode: Payload -> Option<seq<T>>,
                          encode: seq<T> -> Payload, fromDb: Option<seq<T>>): (r: Fetched<T>)
    ensures Hit(c, key, decode) ==> r == Fetched(Some(ReadCached(c, key, decode).value), c)
    ensures !Hit(c, key, decode) ==> r.value == fromDb
    ensures r.value.None? <==> !Hit(c, key, decode) && fromDb.None?
    ensures !Hit(c, key, decode) && fromDb.Some? && c.up ==> r.cache.strings == c.strings[key := encode(fromDb.value)]
    ensures !c.up || fromDb.None? ==> r.cache == c
    ensures r.cache.zsets == c.zsets && r.cache.up == c.up
  {
    match ReadCached(c, key, decode)
    case Ok(v) => Fetched(Some(v), c)
    case Err(_) =>
      match fromDb
      case None => Fetched(None, c)
      case Some(rows) => Fetched(fromDb, Set(c, key, encode(rows)).cache)
  }

  /**
   * After a miss that the database answered, the write-back makes the next read a
   * hit that returns the database's answer without consulting the database again.
   */
  lemma RepopulatedCacheAnswers<T>(c: Redis, key: string, decode: Payload -> Option<seq<T>>,
                                   encode: seq<T> -> Payload, rows: seq<T>, later: Option<seq<T>>)
    requires forall xs :: decode(encode(xs)) == Some(xs)
    requires c.up && !Hit(c, key, decode)
    ensures var first := ReadThrough(c, key, decode, encode, Some(rows));
      ReadThrough(first.cache, key, decode, encode, later) == Fetched(Some(rows), first.cache)
  {
    var first := ReadThrough(c, key, decode, encode, Some(rows));
    assert first.cache.strings[key] == encode(rows);
    assert decode(encode(rows)) == Some(rows);
    assert ReadCached(first.cache, key, decode) == Ok(rows);
  }
}
