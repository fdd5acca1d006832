/** The decorator URL resolver (src/urls.ts): picks a base address for an
    environment, either the public one or the in-cluster service-discovery
    one, and appends the request parameters as a hand-built query string. */
module Urls {
  import opened Results

  /** Public addresses, by environment (`externalUrls`). */
  const ExternalUrls: map<string, string> := map[
    "prod" := "https://www.nav.no/dekoratoren",
    "dev" := "https://dekoratoren.ekstern.dev.nav.no",
    "beta" := "https://dekoratoren-beta.intern.dev.nav.no",
    "betaTms" := "https://dekoratoren-beta-tms.intern.dev.nav.no"
  ]

  /** In-cluster service-discovery addresses, by environment (`serviceUrls`). */
  const ServiceUrls: map<string, string> := map[
    "prod" := "http://nav-dekoratoren.personbruker",
    "dev" := "http://nav-dekoratoren.personbruker",
    "beta" := "http://nav-dekoratoren-beta.personbruker",
    "betaTms" := "http://nav-dekoratoren-beta-tms.personbruker"
  ]

  /** Cluster names in which service discovery is available (`naisGcpClusters`). */
  const NaisGcpClusters: set<string> := {"dev-gcp", "prod-gcp"}

  const Localhost := "localhost"

  /** A value of the params object as `typeof` sees it: `undefined`, a
      primitive (carried as its string conversion), or an object. */
  datatype ParamValue<O> = Undefined | Primitive(text: string) | Structured(obj: O)

  /** One entry of `Object.entries(params)`. */
  type Entry<O> = (string, ParamValue<O>)

  /** The two JavaScript built-ins the query string goes through, left
      abstract: `encodeURIComponent` and `JSON.stringify`. */
  datatype Builtins<!O> = Builtins(encodeUriComponent: string -> string, jsonStringify: O -> string)

  /** The props the URL depends on. `csr` and `serviceDiscovery` are optional
      flags; `localUrl` is the override used for `localhost`. */
  datatype FetchProps<O> = FetchProps(
    env: string,
    params: Option<seq<Entry<O>>>,
    csr: Option<bool>,
    serviceDiscovery: Option<bool>,
    localUrl: string)

  // ---------------------------------------------------------------------
  // objectToQueryString

  /** The separator written before the entry at index `i`: `?` for the very
      first entry of the object, `&` for every other, whether or not the
      entries before it were written. */
  function Separator(i: nat): string {
    if i == 0 then "?" else "&"
  }

  /** The encoded text of a defined value: objects are serialised to JSON
      first, then percent-encoded. */
  function EncodedValue<O>(v: ParamValue<O>, b: Builtins<O>): string
    requires !v.Undefined?
  {
    match v
    case Primitive(text) => b.encodeUriComponent(text)
    case Structured(obj) => b.encodeUriComponent(b.jsonStringify(obj))
  }

  /** What the fold adds for the entry at index `i`: nothing when the value
      is undefined, otherwise separator, key (not encoded), `=`, value. */
  function Segment<O>(i: nat, e: Entry<O>, b: Builtins<O>): string {
    if e.1.Undefined? then "" else Separator(i) + e.0 + "=" + EncodedValue(e.1, b)
  }

  /** The accumulator of the `reduce` after the first `n` entries. */
  function FoldUpTo<O>(entries: seq<Entry<O>>, n: nat, b: Builtins<O>): string
    requires n <= |entries|
  {
    if n == 0 then "" else FoldUpTo(entries, n - 1, b) + Segment(n - 1, entries[n - 1], b)
  }

  /** `objectToQueryString`: `reduce` over all entries, starting from "".
      The result lists the entries in order: it is the front-to-back
      concatenation of their segments, each numbered by its index. */
  function ObjectToQueryString<O>(entries: seq<Entry<O>>, b: Builtins<O>): (q: string)
    ensures q == SegmentsFrom(entries, 0, b)
  {
    QueryStringSplit(entries, 0, b);
    FoldUpTo(entries, |entries|, b)
  }

  /** Reference reading of the same string: the segments of the entries
      from index `k` on, concatenated front to back. */
  function SegmentsFrom<O>(entries: seq<Entry<O>>, k: nat, b: Builtins<O>): string
    requires k <= |entries|
    decreases |entries| - k
  {
    if k == |entries| then "" else Segment(k, entries[k], b) + SegmentsFrom(entries, k + 1, b)
  }

  /** String concatenation is associative (kept apart so that the
      extensionality step is proved in a small context). */
  lemma ConcatAssoc(x: string, y: string, z: string)
    ensures (x + y) + z == x + (y + z)
  {
  }

  /** The accumulator after `k` entries followed by the segments of the
      remaining entries is the accumulator after all of them. */
  lemma {:induction false} QueryStringSplit<O>(entries: seq<Entry<O>>, k: nat, b: Builtins<O>)
    requires k <= |entries|
    ensures FoldUpTo(entries, |entries|, b) == FoldUpTo(entries, k, b) + SegmentsFrom(entries, k, b)
    decreases |entries| - k
  {
    if k == |entries| {
      assert FoldUpTo(entries, k, b) + "" == FoldUpTo(entries, k, b);
    } else {
      QueryStringSplit(entries, k + 1, b);
      ConcatAssoc(FoldUpTo(entries, k, b), Segment(k, entries[k], b), SegmentsFrom(entries, k + 1, b));
    }
  }

  /** Entry `i` with a defined value appears in the query string verbatim:
      its separator (chosen by its index), its key unencoded, `=`, and its
      encoded value, between the text of the entries before and after it. */
  lemma {:induction false} QueryStringEntry<O>(entries: seq<Entry<O>>, i: nat, b: Builtins<O>)
    requires i < |entries| && !entries[i].1.Undefined?
    ensures ObjectToQueryString(entries, b) ==
            FoldUpTo(entries, i, b)
            + (Separator(i) + entries[i].0 + "=" + EncodedValue(entries[i].1, b))
            + SegmentsFrom(entries, i + 1, b)
  {
    QueryStringSplit(entries, i, b);
    var head := FoldUpTo(entries, i, b);
    var seg := Segment(i, entries[i], b);
    var tail := SegmentsFrom(entries, i + 1, b);
    assert SegmentsFrom(entries, i, b) == seg + tail;
    assert seg == Separator(i) + entries[i].0 + "=" + EncodedValue(entries[i].1, b);
    ConcatAssoc(head, seg, tail);
  }

  lemma {:induction false} SegmentsEmptyIff<O>(entries: seq<Entry<O>>, k: nat, b: Builtins<O>)
    requires k <= |entries|
    ensures SegmentsFrom(entries, k, b) == "" <==>
            forall i :: k <= i < |entries| ==> entries[i].1.Undefined?
    decreases |entries| - k
  {
    if k < |entries| {
      SegmentsEmptyIff(entries, k + 1, b);
      if !entries[k].1.Undefined? {
        assert Segment(k, entries[k], b)[0] == Separator(k)[0];
      }
    }
  }

  /** The query string is empty exactly when every value is undefined
      (in particular for an empty params object). */
  lemma {:induction false} QueryStringEmptyIff<O>(entries: seq<Entry<O>>, b: Builtins<O>)
    ensures ObjectToQueryString(entries, b) == "" <==>
            forall i :: 0 <= i < |entries| ==> entries[i].1.Undefined?
  {
    SegmentsEmptyIff(entries, 0, b);
  }

  lemma {:induction false} LaterSegmentsStartWithAmpersand<O>(entries: seq<Entry<O>>, k: nat, b: Builtins<O>)
    requires 0 < k <= |entries|
    ensures var s := SegmentsFrom(entries, k, b); s == "" || s[0] == '&'
    decreases |entries| - k
  {
    if k < |entries| {
      LaterSegmentsStartWithAmpersand(entries, k + 1, b);
    }
  }

  /** The separator follows the entry index, not the count of entries
      written: the query string starts with `?` exactly when the first
      entry of the object has a defined value; otherwise it is empty or
      starts with `&`. */
  lemma {:induction false} QueryStringStart<O>(entries: seq<Entry<O>>, b: Builtins<O>)
    ensures var q := ObjectToQueryString(entries, b);
      (q != "" && q[0] == '?') <==> (entries != [] && !entries[0].1.Undefined?)
    ensures var q := ObjectToQueryString(entries, b);
      (entries == [] || entries[0].1.Undefined?) ==> q == "" || q[0] == '&'
  {
    if entries != [] {
      LaterSegmentsStartWithAmpersand(entries, 1, b);
    }
  }

  /** A concrete instance of the index quirk: when the first value is
      undefined the second entry is written after `&`, not `?`. */
  lemma {:induction false} UndefinedFirstEntry<O>(b: Builtins<O>)
    ensures ObjectToQueryString([("a", Undefined), ("b", Primitive("x"))], b) ==
            "&b=" + b.encodeUriComponent("x")
  {
    var entries: seq<Entry<O>> := [("a", Undefined), ("b", Primitive("x"))];
    assert FoldUpTo(entries, 1, b) == "";
    assert FoldUpTo(entries, 2, b) == "" + Segment(1, entries[1], b);
  }

  // ---------------------------------------------------------------------
  // isNaisApp, getNaisUrl

  /** `isNaisApp` with the cluster name passed in (None when there is no
      `process` or no `NAIS_CLUSTER_NAME`). */
  function IsNaisApp(clusterName: Option<string>): (r: bool)
    ensures r <==> clusterName == Some("dev-gcp") || clusterName == Some("prod-gcp")
  {
    clusterName.Some? && clusterName.value != "" && clusterName.value in NaisGcpClusters
  }

  /** `serviceDiscovery && !csr && isNaisApp()`, with the parameter defaults
      `csr = false` and `serviceDiscovery = true`: discovery is used iff the
      flag is not explicitly false, csr is not explicitly true, and the
      cluster is `dev-gcp` or `prod-gcp`. */
  function ShouldUseServiceDiscovery(csr: Option<bool>, serviceDiscovery: Option<bool>, clusterName: Option<string>): (r: bool)
    ensures r <==> serviceDiscovery != Some(false) && csr != Some(true) &&
                   (clusterName == Some("dev-gcp") || clusterName == Some("prod-gcp"))
  {
    serviceDiscovery.GetOr(true) && !csr.GetOr(false) && IsNaisApp(clusterName)
  }

  /** `getNaisUrl`: the entry of the chosen table, or the public production
      address when the table has no (or an empty) entry for `env`. */
  function GetNaisUrl(env: string, csr: Option<bool>, serviceDiscovery: Option<bool>, clusterName: Option<string>): (url: string)
    ensures url != ""
    ensures url in ExternalUrls.Values || url in ServiceUrls.Values
  {
    var table := if ShouldUseServiceDiscovery(csr, serviceDiscovery, clusterName) then ServiceUrls else ExternalUrls;
    if env in table && table[env] != "" then table[env] else ExternalUrls["prod"]
  }

  /** For each of the four known environments the service-discovery address
      is chosen iff the gate is open, and the public address otherwise; any
      other environment falls back to the public production address. */
  lemma {:induction false} NaisUrlChoice(env: string, csr: Option<bool>, serviceDiscovery: Option<bool>, clusterName: Option<string>)
    ensures env in ExternalUrls ==>
      (GetNaisUrl(env, csr, serviceDiscovery, clusterName) == ServiceUrls[env] <==>
         ShouldUseServiceDiscovery(csr, serviceDiscovery, clusterName))
    ensures env in ExternalUrls ==>
      (GetNaisUrl(env, csr, serviceDiscovery, clusterName) == ExternalUrls[env] <==>
         !ShouldUseServiceDiscovery(csr, serviceDiscovery, clusterName))
    ensures env !in ExternalUrls ==> GetNaisUrl(env, csr, serviceDiscovery, clusterName) == ExternalUrls["prod"]
  {
    assert ExternalUrls.Keys == ServiceUrls.Keys == {"prod", "dev", "beta", "betaTms"};
  }

  // ---------------------------------------------------------------------
  // getDecoratorUrl

  /** The base address: the override for `localhost`, else `getNaisUrl`. */
  function BaseUrl<O>(props: FetchProps<O>, clusterName: Option<string>): (url: string)
    ensures props.env == Localhost ==> url == props.localUrl
    ensures props.env != Localhost ==> url != "" && (url in ExternalUrls.Values || url in ServiceUrls.Values)
  {
    if props.env == Localhost then props.localUrl
    else GetNaisUrl(props.env, props.csr, props.serviceDiscovery, clusterName)
  }

  /** `getDecoratorUrl`: the base address alone when there are no params
      (for `localhost` the override verbatim, whatever csr, serviceDiscovery
      or the cluster are); otherwise the base, then `/` whether or not csr
      is set, then `env` exactly when it is, then the query string. */
  function GetDecoratorUrl<O>(props: FetchProps<O>, clusterName: Option<string>, b: Builtins<O>): (url: string)
    ensures props.params.None? ==> url == BaseUrl(props, clusterName)
    ensures props.params.None? && props.env == Localhost ==> url == props.localUrl
    ensures props.params.Some? ==>
      var base := BaseUrl(props, clusterName);
      var path := if props.csr == Some(true) then "/env" else "/";
      |url| >= |base| + |path| && url[..|base| + |path|] == base + path &&
      url[|base| + |path|..] == ObjectToQueryString(props.params.value, b)
  {
    var baseUrl := BaseUrl(props, clusterName);
    if props.params.None? then baseUrl
    else baseUrl + "/" + (if props.csr.GetOr(false) then "env" else "") + ObjectToQueryString(props.params.value, b)
  }

  /** An empty params object, or one whose values are all undefined,
      gives the base followed by `/` (or `/env` with csr) and nothing else. */
  lemma {:induction false} UrlWithUndefinedParams<O>(props: FetchProps<O>, clusterName: Option<string>, b: Builtins<O>)
    requires props.params.Some?
    requires forall i :: 0 <= i < |props.params.value| ==> props.params.value[i].1.Undefined?
    ensures GetDecoratorUrl(props, clusterName, b) ==
            BaseUrl(props, clusterName) + (if props.csr == Some(true) then "/env" else "/")
  {
    var base := BaseUrl(props, clusterName);
    var path := if props.csr == Some(true) then "/env" else "/";
    var url := GetDecoratorUrl(props, clusterName, b);
    QueryStringEmptyIff(props.params.value, b);
    assert url == url[..|base| + |path|] + url[|base| + |path|..];
  }

  /** The URL is a function of the inputs that matter: the environment, the
      params and csr always; the override only for `localhost`; the
      service-discovery flag and the cluster only through the gate, and
      only for other environments. */
  lemma {:induction false} UrlDependsOnlyOn<O>(p: FetchProps<O>, q: FetchProps<O>, c1: Option<string>, c2: Option<string>, b: Builtins<O>)
    requires p.env == q.env && p.params == q.params && p.csr == q.csr
    requires p.env == Localhost ==> p.localUrl == q.localUrl
    requires p.env != Localhost ==>
      ShouldUseServiceDiscovery(p.csr, p.serviceDiscovery, c1) == ShouldUseServiceDiscovery(q.csr, q.serviceDiscovery, c2)
    ensures GetDecoratorUrl(p, c1, b) == GetDecoratorUrl(q, c2, b)
  {
  }

  /** `dev` with no params resolves to the public dev address, or to the
      service address inside the GCP clusters. */
  lemma {:induction false} DevExample<O>(clusterName: Option<string>, b: Builtins<O>)
    ensures GetDecoratorUrl(FetchProps("dev", None, None, None, ""), clusterName, b) ==
            if clusterName == Some("dev-gcp") || clusterName == Some("prod-gcp")
            then "http://nav-dekoratoren.personbruker"
            else "https://dekoratoren.ekstern.dev.nav.no"
  {
    assert ExternalUrls["dev"] == "https://dekoratoren.ekstern.dev.nav.no";
  }

  /** Two plain params give `?a=1&b=x` when encoding leaves them alone. */
  lemma {:induction false} TwoParamsQueryString<O>(b: Builtins<O>)
    requires b.encodeUriComponent("1") == "1" && b.encodeUriComponent("x") == "x"
    ensures ObjectToQueryString([("a", Primitive("1")), ("b", Primitive("x"))], b) == "?a=1&b=x"
  {
    var entries: seq<Entry<O>> := [("a", Primitive("1")), ("b", Primitive("x"))];
    assert Segment(0, entries[0], b) == "?a=1";
    assert Segment(1, entries[1], b) == "&b=x";
    assert FoldUpTo(entries, 1, b) == "?a=1";
  }

  /** `prod` with params `{a: 1, b: "x"}` and service discovery off: the
      code inserts `/` before the query string. */
  lemma {:induction false} ProdParamsExample<O>(clusterName: Option<string>, b: Builtins<O>)
    requires b.encodeUriComponent("1") == "1" && b.encodeUriComponent("x") == "x"
    ensures GetDecoratorUrl(
              FetchProps("prod", Some([("a", Primitive("1")), ("b", Primitive("x"))]), None, Some(false), ""),
              clusterName, b)
            == "https://www.nav.no/dekoratoren/?a=1&b=x"
  {
    var entries: seq<Entry<O>> := [("a", Primitive("1")), ("b", Primitive("x"))];
    var props := FetchProps("prod", Some(entries), None, Some(false), "");
    TwoParamsQueryString(b);
    assert !ShouldUseServiceDiscovery(None, Some(false), clusterName);
    assert BaseUrl(props, clusterName) == ExternalUrls["prod"];
    assert GetDecoratorUrl(props, clusterName, b) == ExternalUrls["prod"] + "/" + "" + "?a=1&b=x";
  }
}
