/**
 * The configuration proxy's `/api/config` handler: the API-key check, the
 * project and environment defaults, the upstream flag request, and the
 * transformation of the returned flags into track entries.
 */
module Server {
  import opened Wrappers
  import opened Text
  import Patterns

  /** A JSON scalar, as a variation value may be. */
  datatype Json = JNull | JBool(b: bool) | JNum(n: int) | JStr(s: string)

  /** One variation of an upstream flag: an optional display name and its value. */
  datatype Variation = Variation(name: Option<string>, value: Json)

  /** One item of the upstream flag list; `variations` may be absent from the body. */
  datatype UpstreamFlag = UpstreamFlag(key: string, name: string, variations: Option<seq<Variation>>)

  /** One option of a track entry in the response: `{ id, name }`. */
  datatype TrackOption = TrackOption(id: string, name: Json)

  /** One track entry in the response: `{ name, options }`. */
  datatype TrackConfig = TrackConfig(name: string, options: seq<TrackOption>)

  /** The environment variables the handler reads. */
  datatype Settings = Settings(apiKey: Option<string>, projectKey: Option<string>, envKey: Option<string>)

  /** The upstream request: its URL, the `Authorization` header and the `env` and `summary` parameters. */
  datatype Request = Request(url: string, authorization: string, env: string, summary: bool)

  /**
   * What the upstream call produced: a failure (network error or non-2xx
   * status), or a body whose `items` list may be absent.
   */
  datatype Upstream = Failed | Fetched(items: Option<seq<UpstreamFlag>>)

  datatype Body = ErrorBody(error: string) | TracksBody(tracks: map<string, TrackConfig>)

  datatype Response = Response(status: nat, body: Body)

  const RelevantFlags: seq<string> := ["bass", "drums", "leadArrangement"]
  const MissingKeyError: string := "Missing API Key configuration"
  const FetchError: string := "Failed to fetch configuration"
  const DefaultProject: string := "dj-toggle"
  const DefaultEnvironment: string := "production"
  const FlagsEndpoint: string := "https://app.launchdarkly.com/api/v2/flags/"

  /** JavaScript truthiness of an optional string. */
  predicate Present(v: Option<string>)
  {
    v.Some? && v.value != ""
  }

  /** `v || fallback`. */
  function OrDefault(v: Option<string>, fallback: string): (value: string)
    ensures fallback != "" ==> value != ""
  {
    if Present(v) then v.value else fallback
  }

  /** The upstream request: the flags of the configured project, in the configured environment, not summarised. */
  function RequestFor(settings: Settings): (request: Request)
    requires Present(settings.apiKey)
    ensures request.authorization == settings.apiKey.value && request.authorization != ""
    ensures FlagsEndpoint < request.url && request.env != "" && !request.summary
  {
    Request(FlagsEndpoint + OrDefault(settings.projectKey, DefaultProject), settings.apiKey.value,
            OrDefault(settings.envKey, DefaultEnvironment), false)
  }

  /** Unset or empty project and environment keys fall back to `dj-toggle` and `production`. */
  lemma RequestDefaults(settings: Settings)
    requires Present(settings.apiKey)
    ensures RequestFor(settings).authorization == settings.apiKey.value && !RequestFor(settings).summary
    ensures !Present(settings.projectKey) ==> RequestFor(settings).url == FlagsEndpoint + "dj-toggle"
    ensures Present(settings.projectKey) ==> RequestFor(settings).url == FlagsEndpoint + settings.projectKey.value
    ensures RequestFor(settings).env == if Present(settings.envKey) then settings.envKey.value else "production"
  {
  }

  // ---------------------------------------------------------------------------
  // Options of one flag

  /** The id of the i-th option (counting from 0): `option${i + 1}`. */
  function OptionId(i: nat): (id: string)
    ensures |id| > 6 && id[..6] == "option"
    ensures forall j :: 6 <= j < |id| ==> '0' <= id[j] <= '9'
  {
    "option" + Decimal(i + 1)
  }

  /** `v.name || v.value`. */
  function OptionName(v: Variation): (name: Json)
    ensures name == v.value || (v.name.Some? && name == JStr(v.name.value))
    ensures name.JStr? && name.s == "" ==> name == v.value
  {
    if Present(v.name) then JStr(v.name.value) else v.value
  }

  /** The options of a flag: one per variation, in order. */
  function Options(variations: seq<Variation>): (options: seq<TrackOption>)
    ensures |options| == |variations|
  {
    seq(|variations|, i requires 0 <= i < |variations| => TrackOption(OptionId(i), OptionName(variations[i])))
  }

  /** The index of an option is recovered from its id, so distinct positions get distinct ids. */
  lemma OptionIdIndex(i: nat)
    ensures OptionId(i) == "option" + Decimal(i + 1)
    ensures OptionId(i)[..6] == "option"
    ensures ParseDecimal(OptionId(i)[6..]) == i + 1
  {
    assert OptionId(i)[6..] == Decimal(i + 1);
    ParseDecimalInverse(i + 1);
  }

  /**
   * One option per variation, in order: the i-th is `option` followed by the
   * decimal i + 1, named by the variation's name when that is non-empty and by
   * its value otherwise.
   */
  lemma OptionsFollowVariations(variations: seq<Variation>, i: nat)
    requires i < |variations|
    ensures |Options(variations)| == |variations|
    ensures Options(variations)[i].id == "option" + Decimal(i + 1)
    ensures Options(variations)[i].id[..6] == "option" && ParseDecimal(Options(variations)[i].id[6..]) == i + 1
    ensures variations[i].name.Some? && variations[i].name.value != "" ==>
      Options(variations)[i].name == JStr(variations[i].name.value)
    ensures variations[i].name.None? || variations[i].name.value == "" ==>
      Options(variations)[i].name == variations[i].value
  {
    OptionIdIndex(i);
  }

  /** The option ids of a flag are pairwise distinct. */
  lemma OptionIdsDistinct(variations: seq<Variation>, i: nat, j: nat)
    requires i < |variations| && j < |variations| && i != j
    ensures Options(variations)[i].id != Options(variations)[j].id
  {
    OptionIdIndex(i);
    OptionIdIndex(j);
  }

  /**
   * The first three options get the ids the client's fragment table knows;
   * a fourth variation onward gets ids it does not know.
   */
  lemma OptionIdsKnownToPatterns(i: nat)
    ensures OptionId(i) in Patterns.OptionIds <==> i < 3
  {
    assert Decimal(1) == "1" && Decimal(2) == "2" && Decimal(3) == "3";
    assert OptionId(0) == "option1" && OptionId(1) == "option2" && OptionId(2) == "option3";
    if i >= 3 {
      OptionIdIndex(i);
    }
  }

  // ---------------------------------------------------------------------------
  // The flag list

  /**
   * The entry that replaces `tracks[flag.key]` when the flag is relevant;
   * reading the variations of a flag that has none throws (`None`).
   */
  function Step(tracks: map<string, TrackConfig>, flag: UpstreamFlag): (next: Option<map<string, TrackConfig>>)
    ensures next.None? <==> flag.key in RelevantFlags && flag.variations.None?
    ensures next.Some? ==> next.value.Keys == if flag.key in RelevantFlags then tracks.Keys + {flag.key} else tracks.Keys
    ensures next.Some? ==> forall k :: k in tracks && k != flag.key ==> next.value[k] == tracks[k]
  {
    if flag.key !in RelevantFlags then Some(tracks)
    else if flag.variations.None? then None
    else Some(tracks[flag.key := TrackConfig(flag.name, Options(flag.variations.value))])
  }

  /** The `tracks` object after visiting `items` in order, or `None` when a visit throws. */
  function TracksOf(items: seq<UpstreamFlag>): (tracks: Option<map<string, TrackConfig>>)
    ensures tracks.Some? ==> forall k :: k in tracks.value ==> k in RelevantFlags
  {
    if |items| == 0 then Some(map[])
    else match TracksOf(items[..|items| - 1])
      case None => None
      case Some(tracks) => Step(tracks, items[|items| - 1])
  }

  /** Once a visit has thrown, the whole transformation throws. */
  lemma {:induction false} ThrowSticks(items: seq<UpstreamFlag>, n: nat)
    requires n <= |items| && TracksOf(items[..n]).None?
    ensures TracksOf(items).None?
  {
    if n < |items| {
      var m := |items| - 1;
      assert items[..m][..n] == items[..n];
      ThrowSticks(items[..m], n);
    } else {
      assert items[..n] == items;
    }
  }

  /** The transformation throws exactly when some relevant flag has no variations. */
  lemma {:induction false} TracksOfThrows(items: seq<UpstreamFlag>)
    ensures TracksOf(items).None? <==>
      exists i :: 0 <= i < |items| && items[i].key in RelevantFlags && items[i].variations.None?
  {
    if |items| > 0 {
      var n := |items| - 1;
      var init := items[..n];
      TracksOfThrows(init);
      if i :| 0 <= i < n && init[i].key in RelevantFlags && init[i].variations.None? {
        assert items[i] == init[i];
      }
      if i :| 0 <= i < |items| && items[i].key in RelevantFlags && items[i].variations.None? {
        if i < n {
          assert init[i] == items[i];
        }
      }
    }
  }

  /** Only relevant keys appear, and each relevant key appears exactly when some flag carries it. */
  lemma {:induction false} TracksOfKeys(items: seq<UpstreamFlag>, key: string)
    requires TracksOf(items).Some?
    ensures key in TracksOf(items).value ==> key in RelevantFlags
    ensures key in TracksOf(items).value <==>
      key in RelevantFlags && exists i :: 0 <= i < |items| && items[i].key == key
  {
    if |items| > 0 {
      var n := |items| - 1;
      var init := items[..n];
      assert TracksOf(init).Some?;
      TracksOfKeys(init, key);
      if i :| 0 <= i < n && init[i].key == key {
        assert items[i] == init[i];
      }
      if i :| 0 <= i < |items| && items[i].key == key {
        if i < n {
          assert init[i] == items[i];
        }
      }
    }
  }

  /**
   * The entry of a key comes from the last flag carrying it: that flag's name
   * and its variations mapped to options.
   */
  lemma {:induction false} TracksOfLastWins(items: seq<UpstreamFlag>, i: nat)
    requires TracksOf(items).Some?
    requires i < |items| && items[i].key in RelevantFlags
    requires forall j :: i < j < |items| ==> items[j].key != items[i].key
    ensures items[i].variations.Some?
    ensures items[i].key in TracksOf(items).value
    ensures TracksOf(items).value[items[i].key] == TrackConfig(items[i].name, Options(items[i].variations.value))
  {
    var n := |items| - 1;
    var init := items[..n];
    assert TracksOf(init).Some?;
    if i < n {
      assert init[i] == items[i];
      forall j | i < j < n ensures init[j].key != init[i].key {
        assert init[j] == items[j];
      }
      TracksOfLastWins(init, i);
    }
  }

  // ---------------------------------------------------------------------------
  // The handler

  /** The response for an upstream outcome, once the request has been sent. */
  function ReplyTo(upstream: Upstream): (response: Response)
    ensures response.status == 200 || response == Response(500, ErrorBody(FetchError))
    ensures response.status == 200 ==> upstream.Fetched? && response.body.TracksBody?
  {
    match upstream
    case Failed => Response(500, ErrorBody(FetchError))
    case Fetched(None) => Response(500, ErrorBody(FetchError))
    case Fetched(Some(items)) =>
      match TracksOf(items)
      case None => Response(500, ErrorBody(FetchError))
      case Some(tracks) => Response(200, TracksBody(tracks))
  }

  /**
   * Every reply is either 200 with the transformed flags, holding relevant
   * keys only, or 500 with the fixed fetch error.
   */
  lemma ReplyOutcomes(upstream: Upstream)
    ensures ReplyTo(upstream) == Response(500, ErrorBody(FetchError)) ||
      (ReplyTo(upstream).status == 200 && ReplyTo(upstream).body.TracksBody? &&
       forall k :: k in ReplyTo(upstream).body.tracks ==> k in RelevantFlags)
    ensures ReplyTo(upstream).status == 200 <==>
      upstream.Fetched? && upstream.items.Some? &&
      forall i :: 0 <= i < |upstream.items.value| ==>
        upstream.items.value[i].key !in RelevantFlags || upstream.items.value[i].variations.Some?
  {
    if upstream.Fetched? && upstream.items.Some? {
      var items := upstream.items.value;
      TracksOfThrows(items);
      if TracksOf(items).Some? {
        forall k | k in TracksOf(items).value ensures k in RelevantFlags {
          TracksOfKeys(items, k);
        }
      }
    }
  }

  /**
   * `GET /api/config`. `fetch` stands for the upstream call: it gives the
   * outcome of a request. Without an API key nothing is sent (`sent` is the
   * request actually made) and the reply is 500 with the missing-key error.
   */
  method HandleConfig(settings: Settings, fetch: Request -> Upstream) returns (resp: Response, sent: Option<Request>)
    ensures !Present(settings.apiKey) ==> sent == None && resp == Response(500, ErrorBody(MissingKeyError))
    ensures Present(settings.apiKey) ==> sent == Some(RequestFor(settings)) && resp == ReplyTo(fetch(RequestFor(settings)))
  {
    if !Present(settings.apiKey) {
      return Response(500, ErrorBody(MissingKeyError)), None;
    }
    var request := RequestFor(settings);
    sent := Some(request);
    var upstream := fetch(request);
    if upstream.Failed? || upstream.items.None? {
      return Response(500, ErrorBody(FetchError)), sent;
    }
    var items := upstream.items.value;
    var tracks: map<string, TrackConfig> := map[];
    var i := 0;
    while i < |items|
      invariant 0 <= i <= |items|
      invariant TracksOf(items[..i]) == Some(tracks)
    {
      var flag := items[i];
      assert items[..i + 1][..i] == items[..i];
      if flag.key in RelevantFlags {
        if flag.variations.None? {
          ThrowSticks(items, i + 1);
          return Response(500, ErrorBody(FetchError)), sent;
        }
        tracks := tracks[flag.key := TrackConfig(flag.name, Options(flag.variations.value))];
      }
      i := i + 1;
    }
    assert items[..|items|] == items;
    resp := Response(200, TracksBody(tracks));
  }
}
