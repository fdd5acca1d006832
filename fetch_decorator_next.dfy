/** The fetch, extract and cache pipeline (src/fetch-decorator-next.tsx):
    fetch the decorator page with a bounded number of attempts, pull four
    sections out of it, and keep the result per resolved URL for five
    minutes. */
module FetchDecoratorNext {
  import opened Results
  import opened JsString
  import Urls

  const SecondsPerMinute := 60
  const FiveMinutesInSeconds := 5 * SecondsPerMinute

  /** The cache's `stdTTL`, in seconds. */
  const StdTtl := FiveMinutesInSeconds

  /** `fetchDecorator`'s default number of attempts. */
  const DefaultRetries := 3

  /** The four sections of the decorator page, as inner HTML. */
  datatype DecoratorElements = DecoratorElements(styles: string, scripts: string, header: string, footer: string)

  /** The sections in the order the extractor checks them. */
  datatype Section = Styles | Scripts | Header | Footer

  /** The element id each section is looked up by. */
  function ElementId(s: Section): string {
    match s
    case Styles => "styles"
    case Scripts => "scripts"
    case Header => "header-withmenu"
    case Footer => "footer-withmenu"
  }

  /** Position of a section in the check order. */
  function Rank(s: Section): nat {
    match s
    case Styles => 0
    case Scripts => 1
    case Header => 2
    case Footer => 3
  }

  function Field(e: DecoratorElements, s: Section): string {
    match s
    case Styles => e.styles
    case Scripts => e.scripts
    case Header => e.header
    case Footer => e.footer
  }

  /** What the pipeline throws: retries used up, or a section missing. */
  datatype DecoratorError = RetriesExhausted | MissingSection(section: Section)

  // ---------------------------------------------------------------------
  // fetchDecorator

  /** The outcome of one `fetch` call: a thrown network error, or a
      response with its status and body text. */
  datatype Attempt = NetworkError | Response(status: int, body: string)

  /** `response.ok`: the status is in the 200-299 range, that is, in the
      2xx class; a thrown network error is never ok. */
  function IsOk(a: Attempt): (r: bool)
    ensures r <==> a.Response? && a.status / 100 == 2
  {
    a.Response? && 200 <= a.status <= 299
  }

  /** The recursive `fetchDom` with its counter at `tryCount`: give up once
      the counter reaches `retries`, return the body of an ok response, and
      otherwise count the failure and try again. `outcomes[i]` is what the
      network answers to attempt `i`. */
  function RetryFrom(outcomes: seq<Attempt>, retries: int, tryCount: nat): (r: Result<string, DecoratorError>)
    requires retries <= |outcomes|
    ensures r.Err? ==> r.error == RetriesExhausted
    ensures r.Ok? ==> exists i :: tryCount <= i < retries && IsOk(outcomes[i]) && r.value == outcomes[i].body
    decreases retries - tryCount
  {
    if tryCount >= retries then Err(RetriesExhausted)
    else if IsOk(outcomes[tryCount]) then Ok(outcomes[tryCount].body)
    else RetryFrom(outcomes, retries, tryCount + 1)
  }

  /** `fetchDecorator(url, props, retries)` against the network answers
      `outcomes`. Returns the result and how many attempts were made: at
      most `retries` (none when `retries <= 0`), stopping at the first ok
      response, whose body is returned; every earlier attempt failed. */
  method FetchDecorator(outcomes: seq<Attempt>, retries: int) returns (r: Result<string, DecoratorError>, attempts: nat)
    requires retries <= |outcomes|
    ensures r == RetryFrom(outcomes, retries, 0)
    ensures retries <= 0 ==> attempts == 0 && r == Err(RetriesExhausted)
    ensures r.Ok? ==> 0 < attempts <= retries && IsOk(outcomes[attempts - 1]) && r.value == outcomes[attempts - 1].body
    ensures r.Ok? ==> forall j :: 0 <= j < attempts - 1 ==> !IsOk(outcomes[j])
    ensures r.Err? ==> r.error == RetriesExhausted && attempts == (if retries < 0 then 0 else retries)
    ensures r.Err? ==> forall j :: 0 <= j < attempts ==> !IsOk(outcomes[j])
  {
    var tryCount: nat := 0;
    while true
      invariant tryCount <= |outcomes|
      invariant tryCount > 0 ==> tryCount <= retries
      invariant forall j :: 0 <= j < tryCount ==> !IsOk(outcomes[j])
      invariant RetryFrom(outcomes, retries, tryCount) == RetryFrom(outcomes, retries, 0)
      decreases retries - tryCount
    {
      if tryCount >= retries {
        return Err(RetriesExhausted), tryCount;
      }
      var response := outcomes[tryCount];
      if IsOk(response) {
        return Ok(response.body), tryCount + 1;
      }
      tryCount := tryCount + 1;
    }
  }

  /** The fetch succeeds iff some attempt within the bound gets an ok
      response, and then it returns the body of the first one. */
  lemma {:induction false} RetrySucceedsIff(outcomes: seq<Attempt>, retries: int, tryCount: nat)
    requires retries <= |outcomes|
    ensures RetryFrom(outcomes, retries, tryCount).Ok? <==>
            exists i :: tryCount <= i < retries && IsOk(outcomes[i])
    ensures forall i :: tryCount <= i < retries && IsOk(outcomes[i]) &&
                        (forall j :: tryCount <= j < i ==> !IsOk(outcomes[j])) ==>
                        RetryFrom(outcomes, retries, tryCount) == Ok(outcomes[i].body)
    decreases retries - tryCount
  {
    if tryCount < retries && !IsOk(outcomes[tryCount]) {
      RetrySucceedsIff(outcomes, retries, tryCount + 1);
    }
  }

  /** A non-ok status is a failure exactly like a thrown network error:
      replacing such a response by a network error changes nothing. */
  lemma {:induction false} NonOkStatusIsFailure(outcomes: seq<Attempt>, retries: int, tryCount: nat, i: nat)
    requires retries <= |outcomes| && i < |outcomes|
    requires outcomes[i].Response? && !IsOk(outcomes[i])
    ensures RetryFrom(outcomes[i := NetworkError], retries, tryCount) == RetryFrom(outcomes, retries, tryCount)
    decreases retries - tryCount
  {
    if tryCount < retries {
      NonOkStatusIsFailure(outcomes, retries, tryCount + 1, i);
    }
  }

  /** Two failures then a success within the default bound return the
      body; three failures exhaust it. */
  lemma RetryExamples(body: string)
    ensures RetryFrom([NetworkError, Response(503, "busy"), Response(200, body)], DefaultRetries, 0) == Ok(body)
    ensures RetryFrom([NetworkError, Response(404, ""), NetworkError], DefaultRetries, 0) == Err(RetriesExhausted)
  {
  }

  // ---------------------------------------------------------------------
  // parseDom

  /** The parsed page, reduced to what the extractor reads: element id to
      inner HTML, for the elements `getElementById` finds. */
  type Document = map<string, string>

  /** `document.getElementById(id)?.innerHTML`: `undefined` (None) when no
      element has the id. */
  function InnerHtml(doc: Document, s: Section): Option<string> {
    if ElementId(s) in doc then Some(doc[ElementId(s)]) else None
  }

  /** JavaScript truthiness of a string that may be `undefined`. */
  predicate Truthy(v: Option<string>) {
    v.Some? && v.value != ""
  }

  /** The extractor's test of a section: its inner HTML is truthy, so the
      element exists and its inner HTML, untrimmed, is not empty. Any
      section that still has text after trimming passes. */
  function Found(doc: Document, s: Section): (r: bool)
    ensures r <==> ElementId(s) in doc && |doc[ElementId(s)]| > 0
    ensures ElementId(s) in doc && Trim(doc[ElementId(s)]) != "" ==> r
  {
    Truthy(InnerHtml(doc, s))
  }

  /** Every section of a record is trimmed. */
  predicate AllTrimmed(e: DecoratorElements) {
    IsTrimmed(e.styles) && IsTrimmed(e.scripts) && IsTrimmed(e.header) && IsTrimmed(e.footer)
  }

  /** `parseDom`: check styles, scripts, header and footer in that order,
      failing on the first one not found; otherwise return all four,
      trimmed. */
  function ParseDom(doc: Document): (r: Result<DecoratorElements, DecoratorError>)
    ensures r.Ok? ==> AllTrimmed(r.value)
    ensures r.Err? ==> r.error.MissingSection?
  {
    if !Found(doc, Styles) then Err(MissingSection(Styles))
    else if !Found(doc, Scripts) then Err(MissingSection(Scripts))
    else if !Found(doc, Header) then Err(MissingSection(Header))
    else if !Found(doc, Footer) then Err(MissingSection(Footer))
    else
      Ok(DecoratorElements(
        Trim(doc[ElementId(Styles)]), Trim(doc[ElementId(Scripts)]),
        Trim(doc[ElementId(Header)]), Trim(doc[ElementId(Footer)])))
  }

  /** All or nothing: extraction succeeds iff all four sections are found,
      and then each field is the trimmed inner HTML of its element. */
  lemma {:induction false} ParseDomAllOrNothing(doc: Document)
    ensures ParseDom(doc).Ok? <==> forall s: Section :: Found(doc, s)
    ensures ParseDom(doc).Ok? ==>
      forall s: Section :: Field(ParseDom(doc).value, s) == Trim(doc[ElementId(s)])
  {
    if forall s: Section :: Found(doc, s) {
      assert Found(doc, Styles) && Found(doc, Scripts) && Found(doc, Header) && Found(doc, Footer);
    }
    if ParseDom(doc).Ok? {
      forall s: Section ensures Found(doc, s) && Field(ParseDom(doc).value, s) == Trim(doc[ElementId(s)]) {
        match s
        case Styles =>
        case Scripts =>
        case Header =>
        case Footer =>
      }
    }
  }

  /** The error names the first section, in check order, that is not
      found, even when later ones are present. */
  lemma {:induction false} ParseDomFirstMissing(doc: Document, s: Section)
    ensures ParseDom(doc) == Err(MissingSection(s)) <==>
            !Found(doc, s) && forall t: Section :: Rank(t) < Rank(s) ==> Found(doc, t)
  {
    if !Found(doc, s) && forall t: Section :: Rank(t) < Rank(s) ==> Found(doc, t) {
      match s
      case Styles =>
      case Scripts =>
        assert Found(doc, Styles) by { assert Rank(Styles) < Rank(s); }
      case Header =>
        assert Found(doc, Styles) by { assert Rank(Styles) < Rank(s); }
        assert Found(doc, Scripts) by { assert Rank(Scripts) < Rank(s); }
      case Footer =>
        assert Found(doc, Styles) by { assert Rank(Styles) < Rank(s); }
        assert Found(doc, Scripts) by { assert Rank(Scripts) < Rank(s); }
        assert Found(doc, Header) by { assert Rank(Header) < Rank(s); }
    }
  }

  /** The check is on the untrimmed inner HTML: a section that is only
      white space passes and comes out as the empty string, and an
      extracted field is empty exactly when its element held only white
      space. */
  lemma {:induction false} WhiteSpaceOnlySectionPasses(doc: Document, s: Section)
    requires ParseDom(doc).Ok?
    ensures Field(ParseDom(doc).value, s) == "" <==> AllWhiteSpace(doc[ElementId(s)])
  {
    ParseDomAllOrNothing(doc);
    TrimEmptyIffAllWhiteSpace(doc[ElementId(s)]);
  }

  // ---------------------------------------------------------------------
  // fetchDecoratorHtml

  /** What `fetchDecoratorHtml` yields: the fetch error, or the extraction
      of the fetched page parsed by `parse`. */
  function DecoratorHtml(outcomes: seq<Attempt>, parse: string -> Document): (r: Result<DecoratorElements, DecoratorError>)
    requires DefaultRetries <= |outcomes|
    ensures r.Ok? ==> AllTrimmed(r.value)
  {
    match RetryFrom(outcomes, DefaultRetries, 0)
    case Err(e) => Err(e)
    case Ok(page) => ParseDom(parse(page))
  }

  /** The pipeline fails with retries exhausted iff none of the three
      attempts is ok; otherwise its outcome is the extraction of the first
      ok body, so an extraction error is never followed by another fetch. */
  lemma DecoratorHtmlOutcome(outcomes: seq<Attempt>, parse: string -> Document)
    requires DefaultRetries <= |outcomes|
    ensures DecoratorHtml(outcomes, parse) == Err(RetriesExhausted) <==>
            forall i :: 0 <= i < DefaultRetries ==> !IsOk(outcomes[i])
    ensures forall i :: 0 <= i < DefaultRetries && IsOk(outcomes[i]) &&
                        (forall j :: 0 <= j < i ==> !IsOk(outcomes[j])) ==>
                        DecoratorHtml(outcomes, parse) == ParseDom(parse(outcomes[i].body))
  {
    RetrySucceedsIff(outcomes, DefaultRetries, 0);
  }

  /** `fetchDecoratorHtml`: fetch with the default three attempts, then
      extract; a missing section is not retried. */
  method FetchDecoratorHtml(outcomes: seq<Attempt>, parse: string -> Document)
    returns (r: Result<DecoratorElements, DecoratorError>, attempts: nat)
    requires DefaultRetries <= |outcomes|
    ensures r == DecoratorHtml(outcomes, parse)
    ensures attempts <= DefaultRetries
    ensures r.Err? && r.error.MissingSection? ==>
      0 < attempts && IsOk(outcomes[attempts - 1]) && r == ParseDom(parse(outcomes[attempts - 1].body))
  {
    var page;
    page, attempts := FetchDecorator(outcomes, DefaultRetries);
    match page
    case Err(e) =>
      r := Err(e);
    case Ok(dom) =>
      r := ParseDom(parse(dom));
  }

  // ---------------------------------------------------------------------
  // getDecoratorRsc and its cache

  /** A cached value with the time (in seconds) after which it is stale. */
  datatype CacheEntry = CacheEntry(value: DecoratorElements, expires: int)

  /** The cache treats an entry as gone once its expiry time has passed. */
  predicate Expired(e: CacheEntry, now: int) {
    e.expires < now
  }

  /** What a lookup of `key` at time `now` returns: the stored value while
      `now` has not passed its expiry time, nothing otherwise. */
  function Lookup(entries: map<string, CacheEntry>, key: string, now: int): (v: Option<DecoratorElements>)
    ensures v.Some? <==> key in entries && now <= entries[key].expires
    ensures v.Some? ==> v.value == entries[key].value
  {
    if key in entries && !Expired(entries[key], now) then Some(entries[key].value) else None
  }

  /** The module-level cache of `getDecoratorRsc`, keyed by resolved URL. */
  class DecoratorCache {
    var entries: map<string, CacheEntry>

    /** Every cached value came out of a successful extraction. */
    ghost predicate Valid()
      reads this
    {
      forall k :: k in entries ==> AllTrimmed(entries[k].value)
    }

    constructor ()
      ensures Valid() && entries == map[]
    {
      entries := map[];
    }

    /** `cache.get(key)`: the live value, if any; an expired entry is
        deleted on access. */
    method Get(key: string, now: int) returns (v: Option<DecoratorElements>)
      modifies this
      ensures v == Lookup(old(entries), key, now)
      ensures entries == if key in old(entries) && Expired(old(entries)[key], now)
                         then old(entries) - {key} else old(entries)
    {
      v := Lookup(entries, key, now);
      if key in entries && Expired(entries[key], now) {
        entries := entries - {key};
      }
    }

    /** `cache.set(key, value)` with the standard TTL. */
    method Set(key: string, value: DecoratorElements, now: int)
      modifies this
      ensures entries == old(entries)[key := CacheEntry(value, now + StdTtl)]
    {
      entries := entries[key := CacheEntry(value, now + StdTtl)];
    }

    /** The cache's periodic check: drop every expired entry. What any
        lookup returns at that time is unchanged. */
    method Sweep(now: int)
      requires Valid()
      modifies this
      ensures Valid()
      ensures entries == map k | k in old(entries) && !Expired(old(entries)[k], now) :: old(entries)[k]
      ensures forall k :: Lookup(entries, k, now) == Lookup(old(entries), k, now)
    {
      entries := map k | k in entries && !Expired(entries[k], now) :: entries[k];
    }

    /** The cache step of `getDecoratorRsc` for the resolved `url`: the
        lookup happens at time `now`; a live entry is returned without
        fetching; otherwise fetch and extract, and on success store the
        result under `url` at time `storedAt`, when the awaited fetch has
        finished; on failure leave the cache as it was (less the expired
        entry, which the lookup deleted). `computed` tells whether the
        pipeline ran. Whatever is returned on success, cached or fresh, is
        an extraction result. */
    method GetOrCompute(url: string, now: int, storedAt: int, outcomes: seq<Attempt>, parse: string -> Document)
      returns (r: Result<DecoratorElements, DecoratorError>, computed: bool)
      requires Valid()
      requires now <= storedAt
      requires DefaultRetries <= |outcomes|
      modifies this
      ensures Valid()
      ensures r.Ok? ==> AllTrimmed(r.value)
      ensures computed <==> Lookup(old(entries), url, now).None?
      ensures !computed ==> r == Ok(Lookup(old(entries), url, now).value) && entries == old(entries)
      ensures computed ==> r == DecoratorHtml(outcomes, parse)
      ensures computed && r.Ok? ==> entries == old(entries)[url := CacheEntry(r.value, storedAt + StdTtl)]
      ensures computed && r.Err? ==> entries == old(entries) - {url}
    {
      ghost var before := entries;
      var cached := Get(url, now);
      if cached.Some? {
        return Ok(cached.value), false;
      }
      assert entries == before - {url};
      r := ComputeAndStore(url, storedAt, outcomes, parse);
      computed := true;
      if r.Ok? {
        assert (before - {url})[url := CacheEntry(r.value, storedAt + StdTtl)]
            == before[url := CacheEntry(r.value, storedAt + StdTtl)];
      }
    }

    /** The miss path of `getDecoratorRsc`: run `fetchDecoratorHtml` and
        store a success under `url` at time `storedAt`, once the fetch has
        finished; a thrown error stores nothing. */
    method ComputeAndStore(url: string, storedAt: int, outcomes: seq<Attempt>, parse: string -> Document)
      returns (r: Result<DecoratorElements, DecoratorError>)
      requires Valid()
      requires DefaultRetries <= |outcomes|
      modifies this
      ensures Valid()
      ensures r == DecoratorHtml(outcomes, parse)
      ensures r.Ok? ==> entries == old(entries)[url := CacheEntry(r.value, storedAt + StdTtl)]
      ensures r.Err? ==> entries == old(entries)
    {
      var attempts;
      r, attempts := FetchDecoratorHtml(outcomes, parse);
      if r.Ok? {
        Set(url, r.value, storedAt);
      }
    }

    /** `getDecoratorRsc(props)`, looking up at time `now` and storing a
        fresh result at time `storedAt`: resolve the URL and go through the
        cache with it as the key. */
    method GetDecoratorRsc<O>(props: Urls.FetchProps<O>, clusterName: Option<string>, b: Urls.Builtins<O>,
                              now: int, storedAt: int, outcomes: seq<Attempt>, parse: string -> Document)
      returns (r: Result<DecoratorElements, DecoratorError>, computed: bool)
      requires Valid()
      requires now <= storedAt
      requires DefaultRetries <= |outcomes|
      modifies this
      ensures Valid()
      ensures r.Ok? ==> AllTrimmed(r.value)
      ensures var url := Urls.GetDecoratorUrl(props, clusterName, b);
        && (computed <==> Lookup(old(entries), url, now).None?)
        && (!computed ==> r == Ok(Lookup(old(entries), url, now).value) && entries == old(entries))
        && (computed ==> r == DecoratorHtml(outcomes, parse))
        && (computed && r.Ok? ==> entries == old(entries)[url := CacheEntry(r.value, storedAt + StdTtl)])
        && (computed && r.Err? ==> entries == old(entries) - {url})
    {
      var url := Urls.GetDecoratorUrl(props, clusterName, b);
      r, computed := GetOrCompute(url, now, storedAt, outcomes, parse);
    }
  }

  /** Two requests for the same props, the first looking up at `t1` and
      storing at `s1`, the second looking up at `t2` and storing at `s2`:
      when the first one computed a result, the second runs the pipeline
      again iff it looks up more than `StdTtl` seconds after that result was
      stored, and otherwise returns the same value. */
  method RequestTwice<O>(c: DecoratorCache, props: Urls.FetchProps<O>, clusterName: Option<string>, b: Urls.Builtins<O>,
                         t1: int, s1: int, outcomes1: seq<Attempt>,
                         t2: int, s2: int, outcomes2: seq<Attempt>, parse: string -> Document)
    returns (first: Result<DecoratorElements, DecoratorError>, computed1: bool,
             second: Result<DecoratorElements, DecoratorError>, computed2: bool)
    requires c.Valid()
    requires t1 <= s1 && t2 <= s2
    requires DefaultRetries <= |outcomes1| && DefaultRetries <= |outcomes2|
    modifies c
    ensures c.Valid()
    ensures computed1 && first.Ok? ==> (computed2 <==> t2 > s1 + StdTtl)
    ensures computed1 && first.Ok? && t2 <= s1 + StdTtl ==> second == first
  {
    first, computed1 := c.GetDecoratorRsc(props, clusterName, b, t1, s1, outcomes1, parse);
    second, computed2 := c.GetDecoratorRsc(props, clusterName, b, t2, s2, outcomes2, parse);
  }
}
