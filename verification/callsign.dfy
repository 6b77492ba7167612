/**
 * Callsign lookup (src/termlogger/callsign.py): the service that normalises
 * the callsign, answers from its cache, lazily creates a provider from the
 * configuration and caches only successful answers; and the helpers that
 * read text out of a provider's XML reply.
 *
 * A provider's network lookup is an oracle `ask(provider, callsign)` that
 * answers with a record, with nothing, or with a lookup error.
 */
module Callsign {
  import opened Prelude
  import opened Strings
  import opened Models

  /** The lookup services a configuration can name. */
  datatype LookupService = NoService | Qrz | QrzXml | HamQth

  /** The part of the application configuration the lookup service reads. */
  datatype Config = Config(
    lookupService: LookupService,
    qrzUsername: string,
    qrzPassword: string,
    hamqthUsername: string,
    hamqthPassword: string)

  /** A lookup provider and the credentials it was created with. */
  datatype Provider =
    | QrzXmlProvider(username: string, password: string)
    | HamQthProvider(username: string, password: string)

  /** What a provider's lookup does: returns a record, returns nothing, or raises a lookup error. */
  datatype Answer = Found(result: CallsignLookupResult) | NotFound | Failed

  /** The provider a configuration calls for: QRZ XML or HamQTH, and only with a
      non-empty username and password for that service. */
  function ProviderFor(config: Config): (p: Option<Provider>)
    ensures p.Some? <==>
      || (config.lookupService == QrzXml && config.qrzUsername != "" && config.qrzPassword != "")
      || (config.lookupService == HamQth && config.hamqthUsername != "" && config.hamqthPassword != "")
    ensures p.Some? && config.lookupService == QrzXml ==>
      p.value == QrzXmlProvider(config.qrzUsername, config.qrzPassword)
    ensures p.Some? && config.lookupService == HamQth ==>
      p.value == HamQthProvider(config.hamqthUsername, config.hamqthPassword)
  {
    match config.lookupService
    case QrzXml =>
      if config.qrzUsername != "" && config.qrzPassword != "" then
        Some(QrzXmlProvider(config.qrzUsername, config.qrzPassword))
      else None
    case HamQth =>
      if config.hamqthUsername != "" && config.hamqthPassword != "" then
        Some(HamQthProvider(config.hamqthUsername, config.hamqthPassword))
      else None
    case _ => None
  }

  /** No provider for "none", nor for plain QRZ whatever the credentials. */
  lemma NoProviderWithoutXmlService(config: Config)
    requires config.lookupService == NoService || config.lookupService == Qrz
    ensures ProviderFor(config) == None
  {
  }

  /** The cache key of a callsign: upper-cased, surrounding whitespace removed.
      The key is the upper-cased form of one slice of the input, and everything
      outside that slice is whitespace. */
  function Normalize(callsign: string): (key: string)
    ensures IsUpper(key) && IsStripped(key)
    ensures var a := |callsign| - |StripLeft(Upper(callsign))|;
      && a + |key| <= |callsign|
      && key == Upper(callsign[a..a + |key|])
      && (forall i :: 0 <= i < a ==> IsSpace(callsign[i]))
      && (forall i :: a + |key| <= i < |callsign| ==> IsSpace(callsign[i]))
  {
    UpperIsUpper(callsign);
    UpperStripKeepsSlice(callsign);
    Strip(Upper(callsign))
  }

  /** Normalising a key again changes nothing, so every spelling of a callsign
      that differs in case or surrounding whitespace shares one cache entry. */
  lemma NormalizeIdempotent(callsign: string)
    ensures Normalize(Normalize(callsign)) == Normalize(callsign)
  {
    var key := Normalize(callsign);
    UpperFixesUpper(key);
    StripFixesStripped(key);
  }

  /** Callsigns that differ only in letter case have the same key. */
  lemma NormalizeIgnoresCase(a: string, b: string)
    requires Upper(a) == Upper(b)
    ensures Normalize(a) == Normalize(b)
  {
  }

  /** A cache key is one that normalisation leaves unchanged and that is not empty. */
  predicate IsKey(key: string) {
    key != "" && Normalize(key) == key
  }

  class CallsignLookupService {
    var config: Config
    var provider: Option<Provider>
    var cache: map<string, CallsignLookupResult>
    /** Every question put to a provider, in order. */
    ghost var queries: seq<(Provider, string)>

    /** A provider, once created, is the one the configuration calls for;
        every cached key is a normalised, non-empty callsign. */
    ghost predicate Valid()
      reads this
    {
      && (provider.Some? ==> provider == ProviderFor(config))
      && forall key :: key in cache ==> IsKey(key)
    }

    constructor (config: Config)
      ensures Valid()
      ensures this.config == config && provider == None && cache == map[] && queries == []
    {
      this.config := config;
      provider := None;
      cache := map[];
      queries := [];
    }

    /** Gets the provider, creating it on first use; an existing provider is reused. */
    method GetProvider() returns (p: Option<Provider>)
      requires Valid()
      modifies this`provider
      ensures Valid()
      ensures p == provider == ProviderFor(config)
      ensures old(provider).Some? ==> provider == old(provider)
    {
      if config.lookupService == NoService {
        return None;
      }
      if provider.None? {
        if config.lookupService == QrzXml {
          if config.qrzUsername != "" && config.qrzPassword != "" {
            provider := Some(QrzXmlProvider(config.qrzUsername, config.qrzPassword));
          }
        } else if config.lookupService == HamQth {
          if config.hamqthUsername != "" && config.hamqthPassword != "" {
            provider := Some(HamQthProvider(config.hamqthUsername, config.hamqthPassword));
          }
        }
      }
      p := provider;
    }

    /** Looks a callsign up: from the cache when it is there, otherwise from the provider,
        caching the answer only when the provider found a record. */
    method Lookup(callsign: string, ask: (Provider, string) -> Answer) returns (r: Option<CallsignLookupResult>)
      requires Valid()
      modifies this`provider, this`cache, this`queries
      ensures Valid()
      ensures old(cache).Keys <= cache.Keys
      ensures forall key :: key in old(cache) ==> cache[key] == old(cache)[key]
      ensures Normalize(callsign) == "" ==>
        r == None && cache == old(cache) && queries == old(queries) && provider == old(provider)
      ensures Normalize(callsign) in old(cache) ==>
        r == Some(old(cache)[Normalize(callsign)])
        && cache == old(cache) && queries == old(queries) && provider == old(provider)
      ensures Normalize(callsign) != "" && Normalize(callsign) !in old(cache) ==>
        provider == ProviderFor(config)
      ensures Normalize(callsign) != "" && Normalize(callsign) !in old(cache) && ProviderFor(config).None? ==>
        r == None && cache == old(cache) && queries == old(queries)
      ensures Normalize(callsign) != "" && Normalize(callsign) !in old(cache) && ProviderFor(config).Some? ==>
        var key := Normalize(callsign);
        var answer := ask(ProviderFor(config).value, key);
        && queries == old(queries) + [(ProviderFor(config).value, key)]
        && r == (if answer.Found? then Some(answer.result) else None)
        && cache == (if answer.Found? then old(cache)[key := answer.result] else old(cache))
    {
      var key := Normalize(callsign);
      if key == "" {
        return None;
      }
      if key in cache {
        return Some(cache[key]);
      }
      var p := GetProvider();
      if p.None? {
        return None;
      }
      queries := queries + [(p.value, key)];
      var answer := ask(p.value, key);
      match answer
      case Found(result) =>
        NormalizeIdempotent(callsign);
        cache := cache[key := result];
        r := Some(result);
      case NotFound =>
        r := None;
      case Failed =>
        r := None;
    }

    method ClearCache()
      requires Valid()
      modifies this`cache
      ensures Valid()
      ensures cache == map[]
    {
      cache := map[];
    }

    /** Takes a new configuration; drops the provider and empties the cache. */
    method UpdateConfig(newConfig: Config)
      modifies this`config, this`provider, this`cache
      ensures Valid()
      ensures config == newConfig && provider == None && cache == map[]
    {
      config := newConfig;
      provider := None;
      cache := map[];
    }

    /** Releases the provider. */
    method Close()
      requires Valid()
      modifies this`provider
      ensures Valid()
      ensures provider == None
    {
      provider := None;
    }
  }

  /** A one-off lookup through a fresh service: a record only when the callsign is not
      blank, the configuration yields a provider, and that provider finds a record. */
  method LookupCallsign(callsign: string, config: Config, ask: (Provider, string) -> Answer)
    returns (r: Option<CallsignLookupResult>)
    ensures r.Some? <==>
      && Normalize(callsign) != ""
      && ProviderFor(config).Some?
      && ask(ProviderFor(config).value, Normalize(callsign)).Found?
    ensures r.Some? ==> r.value == ask(ProviderFor(config).value, Normalize(callsign)).result
  {
    var service := new CallsignLookupService(config);
    r := service.Lookup(callsign, ask);
    service.Close();
  }

  /** A child element of an XML reply: its tag and its text, which may be absent. */
  datatype XmlElement = XmlElement(tag: string, text: Option<string>)

  /** `parent.find(tag)`: the first child with that tag. */
  function FindChild(children: seq<XmlElement>, tag: string): (r: Option<XmlElement>)
    ensures r.Some? ==> r.value in children && r.value.tag == tag
    ensures r.Some? ==>
      exists i :: (0 <= i < |children| && children[i] == r.value && forall j :: 0 <= j < i ==> children[j].tag != tag)
    ensures r.None? ==> forall e :: e in children ==> e.tag != tag
  {
    if children == [] then None
    else if children[0].tag == tag then Some(children[0])
    else
      var r := FindChild(children[1..], tag);
      if r.Some? then
        var i :| 0 <= i < |children[1..]| && children[1..][i] == r.value
          && forall j :: 0 <= j < i ==> children[1..][j].tag != tag;
        assert children[i + 1] == r.value;
        assert forall j :: 0 <= j < i + 1 ==> children[j].tag != tag by {
          forall j | 0 <= j < i + 1 ensures children[j].tag != tag {
            if j > 0 { assert children[j] == children[1..][j - 1]; }
          }
        }
        r
      else r
  }

  /** The child with that tag exists and its text is non-empty. */
  predicate HasText(children: seq<XmlElement>, tag: string) {
    var e := FindChild(children, tag);
    e.Some? && Present(e.value.text)
  }

  /** `_get_text`: the stripped text of the child when it has any, otherwise the
      default when that is non-empty, otherwise nothing. */
  function GetText(children: seq<XmlElement>, tag: string, default: string): (r: Option<string>)
    ensures HasText(children, tag) ==>
      r.Some? && IsStripped(r.value) && r.value == Strip(FindChild(children, tag).value.text.value)
    ensures !HasText(children, tag) ==> r == (if default != "" then Some(default) else None)
    ensures r.None? <==> !HasText(children, tag) && default == ""
  {
    var e := FindChild(children, tag);
    if e.Some? && e.value.text.Some? && e.value.text.value != "" then Some(Strip(e.value.text.value))
    else if default != "" then Some(default)
    else None
  }

  /** A child whose text is nothing but whitespace reads as an empty, yet present, string. */
  lemma BlankTextReadsEmpty(children: seq<XmlElement>, tag: string, default: string)
    requires HasText(children, tag)
    requires forall i :: 0 <= i < |FindChild(children, tag).value.text.value| ==>
      IsSpace(FindChild(children, tag).value.text.value[i])
    ensures GetText(children, tag, default) == Some("")
  {
    var t := FindChild(children, tag).value.text.value;
    StripKeepsSlice(t);
    assert Strip(t) == [];
  }

  /** `_get_full_name`: first and last name joined by a space when both are present,
      otherwise whichever is present, otherwise nothing. */
  function GetFullName(children: seq<XmlElement>): (r: Option<string>)
    ensures var first := GetText(children, "fname", "");
      var last := GetText(children, "name", "");
      && (r.None? <==> !Present(first) && !Present(last))
      && (r.Some? ==> r.value != "")
      && (Present(first) ==> first.value <= r.value)
      && (Present(last) ==> EndsWith(r.value, last.value))
      && (Present(first) && Present(last) ==>
            |r.value| == |first.value| + 1 + |last.value| && r.value[|first.value|] == ' ')
      && (Present(first) && !Present(last) ==> r == first)
      && (!Present(first) && Present(last) ==> r == last)
  {
    var first := GetText(children, "fname", "");
    var last := GetText(children, "name", "");
    if Present(first) && Present(last) then Some(first.value + " " + last.value)
    else if Present(last) then last
    else if Present(first) then first
    else None
  }
}
