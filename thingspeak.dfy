/**
 * The upstream client's request building (src/services/thingspeak.ts):
 * endpoint paths, the read key, and the query parameters in the order the
 * parameter dictionary holds them. The requests themselves are not sent.
 */
module ThingSpeak {
  import opened Types
  import opened JsNumbers

  const BaseUrl := "https://api.thingspeak.com"
  const ApiKeyName := "api_key"

  /** One query parameter: a key and its text value. */
  type Param = (string, string)

  predicate KeysDistinct(es: seq<Param>)
  {
    forall i, j :: 0 <= i < j < |es| ==> es[i].0 != es[j].0
  }

  predicate HasKey(es: seq<Param>, key: string)
  {
    exists i :: 0 <= i < |es| && es[i].0 == key
  }

  /** The position of `key`, or the length when it is absent. */
  function KeyIndex(es: seq<Param>, key: string): (i: nat)
    ensures i <= |es|
    ensures i < |es| <==> HasKey(es, key)
    ensures i < |es| ==> es[i].0 == key
    ensures forall j :: 0 <= j < i ==> es[j].0 != key
  {
    if es == [] then 0
    else if es[0].0 == key then 0
    else
      var i := KeyIndex(es[1..], key) + 1;
      assert forall j :: 1 <= j < |es| ==> es[j] == es[1..][j - 1];
      i
  }

  /** The value stored under `key`, if any. */
  function Lookup(es: seq<Param>, key: string): (v: Option<string>)
    ensures v.Some? <==> HasKey(es, key)
  {
    var i := KeyIndex(es, key);
    if i < |es| then Some(es[i].1) else None
  }

  /**
   * `params[key] = value` on a plain object: a key already present keeps
   * its place and takes the new value, a new key goes last.
   */
  function Assign(es: seq<Param>, key: string, value: string): (r: seq<Param>)
    ensures HasKey(es, key) ==> |r| == |es|
    ensures !HasKey(es, key) ==> r == es + [(key, value)]
    ensures forall i :: 0 <= i < |es| ==> r[i].0 == es[i].0
    ensures forall i :: 0 <= i < |es| && es[i].0 != key ==> r[i] == es[i]
    ensures KeysDistinct(es) ==> KeysDistinct(r)
  {
    var i := KeyIndex(es, key);
    if i < |es| then es[i := (key, value)] else es + [(key, value)]
  }

  /** After the assignment the key reads back its new value, and every other key reads as before. */
  lemma AssignLookup(es: seq<Param>, key: string, value: string, other: string)
    ensures KeysDistinct(es) ==> Lookup(Assign(es, key, value), key) == Some(value)
    ensures other != key ==> Lookup(Assign(es, key, value), other) == Lookup(es, other)
  {
    var r := Assign(es, key, value);
    var at := KeyIndex(es, key);
    assert r[at] == (key, value);
    assert r[KeyIndex(r, key)].0 == key;
    var i, j := KeyIndex(r, other), KeyIndex(es, other);
    if other != key {
      if j < |es| {
        assert r[j].0 == other;
      } else {
        assert forall n :: 0 <= n < |r| ==> r[n].0 != other;
      }
    }
  }

  /** `Object.entries` of a plain object whose keys are in insertion order. */
  class QueryParams {
    var entries: seq<Param>

    ghost predicate Valid()
      reads this
    {
      KeysDistinct(entries)
    }

    constructor ()
      ensures Valid() && entries == []
    {
      entries := [];
    }

    method Set(key: string, value: string)
      requires Valid()
      modifies this
      ensures Valid()
      ensures entries == Assign(old(entries), key, value)
    {
      entries := Assign(entries, key, value);
    }
  }

  /** A request address and its query parameters in the order they are appended. */
  datatype Url = Url(address: string, search: seq<Param>)

  /** `if (readApiKey)`: a key that is present and not empty. */
  predicate HasReadKey(readApiKey: Option<string>): (b: bool)
    ensures readApiKey.None? || readApiKey == Some("") ==> !b
    ensures readApiKey.Some? && |readApiKey.value| > 0 ==> b
  {
    readApiKey.Some? && readApiKey.value != ""
  }

  /** The parameters after `buildUrl` has added the read key. */
  function WithApiKey(es: seq<Param>, readApiKey: Option<string>): (r: seq<Param>)
    ensures !HasReadKey(readApiKey) ==> r == es
    ensures |es| <= |r| <= |es| + 1
    ensures forall i :: 0 <= i < |es| ==> r[i].0 == es[i].0
    ensures KeysDistinct(es) ==> KeysDistinct(r)
    ensures KeysDistinct(es) && HasReadKey(readApiKey) ==> Lookup(r, ApiKeyName) == readApiKey
    ensures forall k :: k != ApiKeyName ==> Lookup(r, k) == Lookup(es, k)
  {
    if HasReadKey(readApiKey) then
      assert forall k :: k != ApiKeyName ==> Lookup(Assign(es, ApiKeyName, readApiKey.value), k) == Lookup(es, k) by {
        forall k | k != ApiKeyName {
          AssignLookup(es, ApiKeyName, readApiKey.value, k);
        }
      }
      AssignLookup(es, ApiKeyName, readApiKey.value, ApiKeyName);
      Assign(es, ApiKeyName, readApiKey.value)
    else es
  }

  /** On parameters without a key of their own, the read key is added last exactly when it is set and not empty. */
  lemma ApiKeyAddedIff(es: seq<Param>, readApiKey: Option<string>)
    requires KeysDistinct(es) && !HasKey(es, ApiKeyName)
    ensures HasKey(WithApiKey(es, readApiKey), ApiKeyName) <==> HasReadKey(readApiKey)
    ensures HasReadKey(readApiKey) ==> WithApiKey(es, readApiKey) == es + [(ApiKeyName, readApiKey.value)]
    ensures !HasReadKey(readApiKey) ==> WithApiKey(es, readApiKey) == es
  {
    if HasReadKey(readApiKey) {
      assert WithApiKey(es, readApiKey)[|es|].0 == ApiKeyName;
    }
  }

  /** `/channels/{id}.json`: the channel id sits between the fixed prefix and suffix. */
  function ChannelPath(channelId: string): (p: string)
    ensures |p| == |channelId| + 15
    ensures p[..10] == "/channels/" && p[10..10 + |channelId|] == channelId && p[10 + |channelId|..] == ".json"
  {
    "/channels/" + channelId + ".json"
  }

  /** `/channels/{id}/feeds/last.json`. */
  function LastEntryPath(channelId: string): (p: string)
    ensures |p| == |channelId| + 26
    ensures p[..10] == "/channels/" && p[10..10 + |channelId|] == channelId && p[10 + |channelId|..] == "/feeds/last.json"
  {
    "/channels/" + channelId + "/feeds/last.json"
  }

  /** `/channels/{id}/feeds.json`. */
  function FeedsPath(channelId: string): (p: string)
    ensures |p| == |channelId| + 21
    ensures p[..10] == "/channels/" && p[10..10 + |channelId|] == channelId && p[10 + |channelId|..] == "/feeds.json"
  {
    "/channels/" + channelId + "/feeds.json"
  }

  /** The three endpoints are distinct for every channel id. */
  lemma EndpointsDistinct(channelId: string)
    ensures ChannelPath(channelId) != LastEntryPath(channelId)
    ensures ChannelPath(channelId) != FeedsPath(channelId)
    ensures LastEntryPath(channelId) != FeedsPath(channelId)
  {
    var n := |"/channels/" + channelId|;
    assert ChannelPath(channelId)[n + 1] == 'j';
    assert LastEntryPath(channelId)[n + 1] == 'f';
    assert FeedsPath(channelId)[n] == '/';
    assert LastEntryPath(channelId)[n] == '/';
    assert FeedsPath(channelId)[n + 6] == '.';
    assert LastEntryPath(channelId)[n + 6] == '/';
  }

  /** The options of a feed query; a number None when not given. */
  datatype EntriesOptions = EntriesOptions(results: Option<int>, start: Option<string>, end: Option<string>)

  /** The parameters `getEntries` passes on: each option that is truthy, so a result count of 0 is dropped. */
  function EntriesParams(o: EntriesOptions): (r: seq<Param>)
    ensures |r| <= 3
    ensures forall i :: 0 <= i < |r| ==> r[i].0 in {"results", "start", "end"} && r[i].1 != ""
  {
    (if o.results.Some? && o.results.value != 0 then [("results", IntToString(o.results.value))] else [])
      + (if o.start.Some? && o.start.value != "" then [("start", o.start.value)] else [])
      + (if o.end.Some? && o.end.value != "" then [("end", o.end.value)] else [])
  }

  /** Which options become parameters, and that the read key is never among them. */
  lemma EntriesParamsKeys(o: EntriesOptions)
    ensures KeysDistinct(EntriesParams(o)) && !HasKey(EntriesParams(o), ApiKeyName)
    ensures HasKey(EntriesParams(o), "results") <==> o.results.Some? && o.results.value != 0
    ensures HasKey(EntriesParams(o), "start") <==> o.start.Some? && o.start.value != ""
    ensures HasKey(EntriesParams(o), "end") <==> o.end.Some? && o.end.value != ""
    ensures o.results.Some? && o.results.value != 0 ==> Lookup(EntriesParams(o), "results") == Some(IntToString(o.results.value))
    ensures o.start.Some? && o.start.value != "" ==> Lookup(EntriesParams(o), "start") == o.start
    ensures o.end.Some? && o.end.value != "" ==> Lookup(EntriesParams(o), "end") == o.end
    ensures HasKey(EntriesParams(o), "results") && HasKey(EntriesParams(o), "start") ==> KeyIndex(EntriesParams(o), "results") < KeyIndex(EntriesParams(o), "start")
    ensures HasKey(EntriesParams(o), "start") && HasKey(EntriesParams(o), "end") ==> KeyIndex(EntriesParams(o), "start") < KeyIndex(EntriesParams(o), "end")
  {
    var rs := if o.results.Some? && o.results.value != 0 then [("results", IntToString(o.results.value))] else [];
    var st := if o.start.Some? && o.start.value != "" then [("start", o.start.value)] else [];
    var en := if o.end.Some? && o.end.value != "" then [("end", o.end.value)] else [];
    var es := EntriesParams(o);
    assert es == rs + st + en;
    assert forall i :: 0 <= i < |es| ==> es[i] in rs || es[i] in st || es[i] in en;
    assert "results"[0] == 'r' && "start"[0] == 's' && "end"[0] == 'e' && ApiKeyName[0] == 'a';
    if rs != [] { assert es[0] == rs[0]; }
    if st != [] { assert es[|rs|] == st[0]; }
    if en != [] { assert es[|rs| + |st|] == en[0]; }
  }

  class ThingSpeakService {
    const channelId: string
    const readApiKey: Option<string>

    constructor (channelId: string, readApiKey: Option<string>)
      ensures this.channelId == channelId && this.readApiKey == readApiKey
    {
      this.channelId := channelId;
      this.readApiKey := readApiKey;
    }

    /**
     * Adds the read key to the caller's `params` (in place) and appends
     * every entry of `params`, in order, to the query of the address.
     */
    method BuildUrl(endpoint: string, params: QueryParams) returns (url: Url)
      requires params.Valid()
      modifies params
      ensures params.Valid()
      ensures params.entries == WithApiKey(old(params.entries), readApiKey)
      ensures url == Url(BaseUrl + endpoint, params.entries)
    {
      if HasReadKey(readApiKey) {
        params.Set(ApiKeyName, readApiKey.value);
      }
      var entries := params.entries;
      var search: seq<Param> := [];
      var i := 0;
      while i < |entries|
        invariant 0 <= i <= |entries|
        invariant search == entries[..i]
      {
        search := search + [entries[i]];
        i := i + 1;
      }
      url := Url(BaseUrl + endpoint, search);
    }

    /** The channel metadata request. */
    method ChannelInfoRequest() returns (url: Url)
      ensures url == Url(BaseUrl + ChannelPath(channelId), WithApiKey([], readApiKey))
    {
      var params := new QueryParams();
      url := BuildUrl(ChannelPath(channelId), params);
    }

    /** The latest-entry request. */
    method LatestEntryRequest() returns (url: Url)
      ensures url == Url(BaseUrl + LastEntryPath(channelId), WithApiKey([], readApiKey))
    {
      var params := new QueryParams();
      url := BuildUrl(LastEntryPath(channelId), params);
    }

    /** The feed request: the truthy options in the order results, start, end, then the read key. */
    method EntriesRequest(options: EntriesOptions) returns (url: Url)
      ensures url == Url(BaseUrl + FeedsPath(channelId), WithApiKey(EntriesParams(options), readApiKey))
    {
      var params := new QueryParams();
      if options.results.Some? && options.results.value != 0 {
        params.Set("results", IntToString(options.results.value));
      }
      if options.start.Some? && options.start.value != "" {
        params.Set("start", options.start.value);
      }
      if options.end.Some? && options.end.value != "" {
        params.Set("end", options.end.value);
      }
      assert params.entries == EntriesParams(options);
      url := BuildUrl(FeedsPath(channelId), params);
    }
  }
}
