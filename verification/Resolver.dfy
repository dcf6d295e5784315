/** The beacon resolver: its cache key with a hand-written integer printer, and its two-level cache,
    looked up and filled by any number of concurrent calls on any number of instances. */
module Resolver {
  import opened Schema
  import opened Text

  datatype Observation = Observation(uuid: string, major: Int64, minor: Int64)

  datatype Response = Response(sid: string, lid: string, posino: string, position: string, name: string,
      legacyName: string)

  datatype Context = Context(station: Id, line: Id, position: string, name: string, source: string, confidence: real,
      nearExit: bool)

  datatype Mapping = Mapping(station: Id, line: Id, name: string)

  /** The string functions of the Go library the resolver relies on. */
  datatype Casing = Casing(trim: string -> string, upper: string -> string, lower: string -> string)

  // ---------------------------------------------------------------- formatInt

  const MIN: Int64 := -0x8000_0000_0000_0000

  /** Two's complement negation. */
  function Negate(v: Int64): Int64 {
    if v == MIN then MIN else -(v as int)
  }

  /** What `formatInt` prints: the numeral, except that the least value has no digits. */
  function Formatted(v: Int64): string {
    if v >= 0 then Decimal(v) else if v == MIN then "-" else "-" + Decimal(-(v as int))
  }

  /** What is still to be written in front of the buffer. */
  function Ahead(value: int): string {
    if value > 0 then Decimal(value) else ""
  }

  lemma LastDigit(value: nat)
    requires value > 0
    ensures Ahead(value) == Ahead(value / 10) + [('0' as int + value % 10) as char]
  {
    if value < 10 {
      assert Decimal(value) == [('0' as int + value) as char];
    }
  }

  lemma AheadLength(value: Int64)
    ensures |Ahead(value)| <= 19
  {
    if value > 0 {
      Int64Length(value);
    }
  }

  /** The 20-byte buffer is filled from its end and never overrun. */
  method FormatInt(v: Int64) returns (s: string)
    ensures s == Formatted(v)
  {
    if v == 0 {
      return "0";
    }
    var value: Int64 := v;
    if v < 0 {
      value := Negate(v);
    }
    var digits := new char[20];
    var i := digits.Length;
    ghost var shown := Ahead(value);
    AheadLength(value);
    while value > 0
      invariant 1 <= i <= 20 && |shown| <= 19
      invariant shown == Ahead(value) + digits[i..]
      decreases if value > 0 then value else 0
    {
      LastDigit(value);
      i := i - 1;
      digits[i] := ('0' as int + value % 10) as char;
      value := value / 10;
    }
    if v < 0 {
      i := i - 1;
      digits[i] := '-';
    }
    s := digits[i..];
  }

  /** strconv-style reading: an optional sign and at least one digit. */
  function ParseInt(s: string): Option<int> {
    if s != "" && AllDigits(s) then Some(Value(s))
    else if |s| > 1 && s[0] == '-' && AllDigits(s[1..]) then Some(-Value(s[1..]))
    else None
  }

  lemma NegativeParses(n: nat)
    ensures ParseInt("-" + Decimal(n)) == Some(-(n as int))
  {
    var s := "-" + Decimal(n);
    DecimalRoundTrip(n);
    assert s[0] == '-' && s[1..] == Decimal(n);
    assert !AllDigits(s);
  }

  /** Printing is inverse to parsing for every value but the least one. */
  lemma FormatParses(v: Int64)
    ensures ParseInt(Formatted(v)) == Some(v as int) <==> v != MIN
  {
    if v >= 0 {
      DecimalRoundTrip(v);
    } else if v != MIN {
      NegativeParses(-(v as int));
    } else {
      assert ParseInt("-") == None;
    }
  }

  /** The form of what is printed: digits without a leading zero, behind a sign exactly for negative values,
      with no digit exactly for the least one. */
  lemma FormattedShape(v: Int64)
    ensures var s := Formatted(v); var digits := if v < 0 then s[1..] else s;
      && (v < 0 ==> s[0] == '-')
      && AllDigits(digits) && (digits == "" <==> v == MIN) && (v != 0 && v != MIN ==> digits[0] != '0')
      && (v == 0 ==> digits == "0")
  {
    if v != MIN {
      var n := if v < 0 then -(v as int) else v;
      DecimalRoundTrip(n);
      DecimalLeads(n);
      assert v < 0 ==> Formatted(v)[1..] == Decimal(n);
    }
  }

  lemma FormatInjective(a: Int64, b: Int64)
    requires Formatted(a) == Formatted(b)
    ensures a == b
  {
    FormatParses(a);
    FormatParses(b);
  }

  lemma FormatHasNoColon(v: Int64)
    ensures ':' !in Formatted(v)
  {
    if v >= 0 {
      DecimalRoundTrip(v);
    } else if v != MIN {
      DecimalRoundTrip(-(v as int));
    }
  }

  // ---------------------------------------------------------------- the cache key

  function Key(c: Casing, o: Observation): string {
    c.lower(c.trim(o.uuid)) + ":" + Formatted(o.major) + ":" + Formatted(o.minor)
  }

  lemma LastPart(x: string, d: string, y: string, e: string)
    requires x + ":" + d == y + ":" + e && ':' !in d && ':' !in e
    ensures x == y && d == e
  {
    var l, r := x + ":" + d, y + ":" + e;
    assert l[|x|] == ':' && r[|y|] == ':';
    assert forall i | |x| < i < |l| :: l[i] == d[i - |x| - 1];
    assert forall i | |y| < i < |r| :: r[i] == e[i - |y| - 1];
    assert |x| == |y|;
    assert x == l[..|x|] == r[..|y|] == y;
    assert d == l[|x| + 1..] == r[|y| + 1..] == e;
  }

  /** The parts of a key, read back. */
  lemma KeyReadsBack(c: Casing, o: Observation) returns (major: string, minor: string)
    ensures Key(c, o) == c.lower(c.trim(o.uuid)) + ":" + major + ":" + minor
    ensures if o.major == MIN then major == "-" else ParseInt(major) == Some(o.major as int)
    ensures if o.minor == MIN then minor == "-" else ParseInt(minor) == Some(o.minor as int)
  {
    major, minor := Formatted(o.major), Formatted(o.minor);
    FormatParses(o.major);
    FormatParses(o.minor);
  }

  /** One key, one beacon: the UUID up to trimming and case, and both numbers, even with colons in the UUID. */
  lemma KeyInjective(c: Casing, a: Observation, b: Observation)
    requires Key(c, a) == Key(c, b)
    ensures c.lower(c.trim(a.uuid)) == c.lower(c.trim(b.uuid)) && a.major == b.major && a.minor == b.minor
  {
    var x, y := c.lower(c.trim(a.uuid)), c.lower(c.trim(b.uuid));
    FormatHasNoColon(a.major);
    FormatHasNoColon(b.major);
    FormatHasNoColon(a.minor);
    FormatHasNoColon(b.minor);
    LastPart(x + ":" + Formatted(a.major), Formatted(a.minor), y + ":" + Formatted(b.major), Formatted(b.minor));
    LastPart(x, Formatted(a.major), y, Formatted(b.major));
    FormatInjective(a.major, b.major);
    FormatInjective(a.minor, b.minor);
  }

  // ---------------------------------------------------------------- normalization and fallback

  datatype Config = Config(casing: Casing, mappings: map<string, Mapping>, fixtures: map<string, Context>,
      fallback: Context)

  function Named(c: Casing, r: Response): string {
    if c.trim(r.name) != "" then c.trim(r.name) else c.trim(r.legacyName)
  }

  function Mapped(cfg: Config, r: Response): Option<Mapping> {
    var sid, lid := cfg.casing.upper(cfg.casing.trim(r.sid)), cfg.casing.upper(cfg.casing.trim(r.lid));
    if sid + "|" + lid in cfg.mappings then Some(cfg.mappings[sid + "|" + lid])
    else if sid == "" || lid == "" || Named(cfg.casing, r) == "" then None
    else Some(Mapping(sid, lid, Named(cfg.casing, r)))
  }

  function Positioned(c: Casing, r: Response): string {
    if c.trim(r.posino) != "" then c.trim(r.posino) else c.trim(r.position)
  }

  predicate NearExit(c: Casing, position: string) {
    Contains(c.lower(position), "exit") || Contains(position, "出口") || Contains(position, "出站")
  }

  function Normalize(cfg: Config, r: Response): (v: Option<Context>)
    ensures v.Some? ==> v.value.station != ""
  {
    match Mapped(cfg, r)
    case None => None
    case Some(m) =>
      if m.station == "" then None
      else
        var position := Positioned(cfg.casing, r);
        Some(Context(m.station, m.line, position, m.name, "provider", 0.95, NearExit(cfg.casing, position)))
  }

  datatype Reply = Found(context: Context) | InvalidObservation | Unavailable

  /** Fixture first, then the station fallback. */
  function Fallback(cfg: Config, key: string): Reply {
    if key in cfg.fixtures then
      var f := cfg.fixtures[key];
      Found(f.(source := "fixture", confidence := if f.confidence == 0.0 then 0.75 else f.confidence))
    else if cfg.fallback.station != "" then
      Found(cfg.fallback.(source := "station_fixture", confidence := if cfg.fallback.confidence == 0.0
          then 0.5 else cfg.fallback.confidence))
    else Unavailable
  }

  /** The answer without any cache, when the provider answers `response` (None: no provider, or an error). */
  function Uncached(cfg: Config, key: string, response: Option<Response>): Reply {
    if response.Some? && Normalize(cfg, response.value).Some? then Found(Normalize(cfg, response.value).value)
    else Fallback(cfg, key)
  }

  predicate Valid(c: Casing, o: Observation) {
    c.trim(o.uuid) != "" && o.major >= 0 && o.minor >= 0
  }

  function FromCache(v: Context): Reply {
    Found(v.(source := "cache"))
  }

  /** One resolver instance. `redis` is what the shared cache answers, `response` the provider. */
  class Instance {
    const cfg: Config
    var cache: map<string, Context>

    constructor (cfg: Config)
      ensures this.cfg == cfg && cache == map[]
    {
      this.cfg := cfg;
      cache := map[];
    }

    /** The whole of `Resolve` when nothing interleaves; `put` is what it sends to the shared cache. */
    method Resolve(o: Observation, redis: Option<Context>, response: Option<Response>)
      returns (reply: Reply, put: Option<Context>)
      modifies this`cache
      ensures !Valid(cfg.casing, o) ==> reply == InvalidObservation && cache == old(cache) && put == None
      ensures Valid(cfg.casing, o) ==>
        var key := Key(cfg.casing, o);
        var remote := if redis.Some? && redis.value.station != "" then redis else None;
        var usable := if response.Some? then Normalize(cfg, response.value) else None;
        && (key in old(cache) ==> reply == FromCache(old(cache)[key]) && cache == old(cache) && put == None)
        && (key !in old(cache) && remote.Some? ==>
          reply == FromCache(remote.value) && cache == old(cache)[key := remote.value] && put == None)
        && (key !in old(cache) && remote == None ==>
          && reply == Uncached(cfg, key, response) && put == usable
          && cache == if usable.Some? then old(cache)[key := usable.value] else old(cache))
    {
      put := None;
      if !Valid(cfg.casing, o) {
        return InvalidObservation, None;
      }
      var major := FormatInt(o.major);
      var minor := FormatInt(o.minor);
      var key := cfg.casing.lower(cfg.casing.trim(o.uuid)) + ":" + major + ":" + minor;
      if key in cache {
        return FromCache(cache[key]), None;
      }
      if redis.Some? && redis.value.station != "" {
        cache := cache[key := redis.value];
        return FromCache(redis.value), None;
      }
      if response.Some? {
        var resolved := Normalize(cfg, response.value);
        if resolved.Some? {
          cache := cache[key := resolved.value];
          return Found(resolved.value), resolved;
        }
      }
      reply := Fallback(cfg, key);
    }
  }

  // ---------------------------------------------------------------- the answers, field by field

  /** A mapped beacon takes station, line and name from the mapping, another one from the response, if it
      names all three. */
  lemma NormalizedFields(cfg: Config, r: Response)
    ensures var c := cfg.casing;
      var sid, lid := c.upper(c.trim(r.sid)), c.upper(c.trim(r.lid));
      var name := if c.trim(r.name) != "" then c.trim(r.name) else c.trim(r.legacyName);
      var position := if c.trim(r.posino) != "" then c.trim(r.posino) else c.trim(r.position);
      var exit := Contains(c.lower(position), "exit") || Contains(position, "出口") || Contains(position, "出站");
      Normalize(cfg, r) ==
        if sid + "|" + lid in cfg.mappings then
          var m := cfg.mappings[sid + "|" + lid];
          if m.station == "" then None
          else Some(Context(m.station, m.line, position, m.name, "provider", 0.95, exit))
        else if sid == "" || lid == "" || name == "" then None
        else Some(Context(sid, lid, position, name, "provider", 0.95, exit))
  {
  }

  /** Without a usable response: the fixture of the key, else the station fallback, else nothing, with a
      confidence of 0.75 or 0.5 where none is set. */
  lemma FallbackAnswers(cfg: Config, key: string, response: Option<Response>)
    requires response.Some? ==> Normalize(cfg, response.value) == None
    ensures var reply := Uncached(cfg, key, response);
      && (key in cfg.fixtures ==>
        var f := cfg.fixtures[key];
        reply == Found(Context(f.station, f.line, f.position, f.name, "fixture",
          if f.confidence == 0.0 then 0.75 else f.confidence, f.nearExit)))
      && (key !in cfg.fixtures && cfg.fallback.station != "" ==>
        var f := cfg.fallback;
        reply == Found(Context(f.station, f.line, f.position, f.name, "station_fixture",
          if f.confidence == 0.0 then 0.5 else f.confidence, f.nearExit)))
      && (key !in cfg.fixtures && cfg.fallback.station == "" ==> reply == Unavailable)
  {
  }

  /** A usable response is the answer, and a cached one is told apart by its source alone. */
  lemma UsableAnswers(cfg: Config, key: string, response: Response, v: Context)
    requires Normalize(cfg, response) == Some(v)
    ensures Uncached(cfg, key, Some(response)) == Found(v)
    ensures FromCache(v) == Found(Context(v.station, v.line, v.position, v.name, "cache", v.confidence, v.nearExit))
  {
  }
}
