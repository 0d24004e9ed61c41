/**
 * `NacosPropertySourceLocator`: builds the composite property source named
 * "NACOS" from the base document and one document per active profile.
 */
module Locator {
  import opened Wrappers
  import opened DataIds
  import opened Layers
  import opened Precedence

  /** Name of the composite that `Locate` returns. */
  const NACOS_PROPERTY_SOURCE_NAME: string := "NACOS"

  /** The Nacos `ConfigService`, seen only through what the property
      source builder makes of it. */
  datatype ConfigService = ConfigService(fetch: Fetch)

  /** The inputs the locator reads from `NacosConfigProperties`; a null
      config service or prefix is None. */
  datatype NacosConfigProperties = NacosConfigProperties(
    configService: Option<ConfigService>,
    timeout: int,
    name: string,
    group: string,
    prefix: Option<string>,
    fileExtension: string,
    activeProfiles: seq<string>)

  /** One call `build(dataId, group, fileExtension)` on the builder. */
  datatype Request = Request(dataId: string, group: string, fileExtension: string)

  /** The calls made for `ids`, in order. */
  function Requests(ids: seq<string>, group: string, ext: string): (rs: seq<Request>)
    ensures |rs| == |ids|
    ensures forall i :: 0 <= i < |ids| ==> rs[i] == Request(ids[i], group, ext)
  {
    if ids == [] then [] else [Request(ids[0], group, ext)] + Requests(ids[1..], group, ext)
  }

  lemma {:induction false} RequestsSnoc(ids: seq<string>, id: string, group: string, ext: string)
    ensures Requests(ids + [id], group, ext) == Requests(ids, group, ext) + [Request(id, group, ext)]
  {
    if ids != [] {
      assert (ids + [id])[1..] == ids[1..] + [id];
      RequestsSnoc(ids[1..], id, group, ext);
    }
  }

  /** What loading profile `k` adds, once profiles `..k` are loaded: its data
      id at the end of the requests, and its layer, if found, in front of
      the composite. */
  lemma LoadProfileStep(prefix: string, ext: string, group: string, fetch: Fetch,
                        profiles: seq<string>, k: nat, tail: seq<Layer>)
    requires k < |profiles|
    ensures
      var before, after := RequestedDataIds(prefix, ext, profiles[..k]),
                           RequestedDataIds(prefix, ext, profiles[..k + 1]);
      var id := ProfileDataId(prefix, profiles[k], ext);
      && Requests(after, group, ext) == Requests(before, group, ext) + [Request(id, group, ext)]
      && (fetch(id, group, ext).None? ==>
            Reverse(Found(after, group, ext, fetch)) + tail == Reverse(Found(before, group, ext, fetch)) + tail)
      && (fetch(id, group, ext).Some? ==>
            Reverse(Found(after, group, ext, fetch)) + tail
            == [fetch(id, group, ext).value] + (Reverse(Found(before, group, ext, fetch)) + tail))
  {
    var before := RequestedDataIds(prefix, ext, profiles[..k]);
    var id := ProfileDataId(prefix, profiles[k], ext);
    assert profiles[..k + 1] == profiles[..k] + [profiles[k]];
    RequestedDataIdsSnoc(prefix, ext, profiles[..k], profiles[k]);
    ReversedFoundSnoc(before, id, group, ext, fetch, tail);
    RequestsSnoc(before, id, group, ext);
  }

  /** The data ids a load with these properties requests. */
  function LocatedDataIds(p: NacosConfigProperties): (ids: seq<string>)
    ensures |ids| == 1 + |p.activeProfiles|
    ensures ids[0] == BaseDataId(EffectivePrefix(p.prefix, p.name), p.fileExtension)
    ensures forall i :: 1 <= i < |ids| ==>
      ids[i] == ProfileDataId(EffectivePrefix(p.prefix, p.name), p.activeProfiles[i - 1], p.fileExtension)
  {
    RequestedDataIds(EffectivePrefix(p.prefix, p.name), p.fileExtension, p.activeProfiles)
  }

  /** The sources of the composite `Locate` returns when a service exists:
      the found layers in reverse request order. */
  function LocatedSources(p: NacosConfigProperties): (sources: seq<Layer>)
    requires p.configService.Some?
    ensures |sources| <= 1 + |p.activeProfiles|
  {
    Reverse(Found(LocatedDataIds(p), p.group, p.fileExtension, p.configService.value.fetch))
  }

  /** The composite holds one source per non-null fetch, in reverse order
      of the requests: a found base layer is last, and the layer of the
      last profile, when found, is first. */
  lemma LocatedSourcesOrder(p: NacosConfigProperties)
    requires p.configService.Some?
    ensures
      var ids, fetch := LocatedDataIds(p), p.configService.value.fetch;
      var found, s := Found(ids, p.group, p.fileExtension, fetch), LocatedSources(p);
      && |s| == |found| <= 1 + |p.activeProfiles|
      && (forall k :: 0 <= k < |s| ==> s[k] == found[|found| - 1 - k])
      && (s == [] <==> forall i :: 0 <= i < |ids| ==> fetch(ids[i], p.group, p.fileExtension).None?)
      && (fetch(ids[0], p.group, p.fileExtension).Some? ==>
            s != [] && s[|s| - 1] == fetch(ids[0], p.group, p.fileExtension).value)
      && (fetch(ids[|ids| - 1], p.group, p.fileExtension).Some? ==>
            s != [] && s[0] == fetch(ids[|ids| - 1], p.group, p.fileExtension).value)
  {
    var ids, fetch := LocatedDataIds(p), p.configService.value.fetch;
    var found := Found(ids, p.group, p.fileExtension, fetch);
    FoundEmptyIff(ids, p.group, p.fileExtension, fetch);
    FoundEnds(ids, p.group, p.fileExtension, fetch);
    if found != [] {
      ReverseAt(found, 0);
      ReverseAt(found, |found| - 1);
    } else {
      assert Reverse(found) == [];
    }
    forall k | 0 <= k < |found| ensures Reverse(found)[k] == found[|found| - 1 - k] {
      ReverseAt(found, k);
    }
  }

  /** Reading a key from the composite (by the assumed first-match lookup)
      gives the last-wins merge of the found layers in request order:
      profiles declared later override earlier ones and the base. */
  lemma LocatedLookupIsLastWins(p: NacosConfigProperties, key: string)
    requires p.configService.Some?
    ensures
      var m := Merge(Found(LocatedDataIds(p), p.group, p.fileExtension, p.configService.value.fetch));
      GetProperty(LocatedSources(p), key) == if key in m then Some(m[key]) else None
  {
    FirstMatchOfReversedIsMerge(Found(LocatedDataIds(p), p.group, p.fileExtension, p.configService.value.fetch), key);
  }

  /** Spring's `CompositePropertySource`, reduced to its name and its
      ordered list of sources. */
  class CompositePropertySource {
    const name: string
    var sources: seq<Layer>

    constructor (name: string)
      ensures this.name == name
      ensures sources == []
    {
      this.name := name;
      sources := [];
    }

    /** Puts `ps` in front; the earlier sources follow it unchanged. */
    method AddFirstPropertySource(ps: Layer)
      modifies this
      ensures sources == [ps] + old(sources)
    {
      sources := [ps] + sources;
    }
  }

  /** `NacosPropertySourceBuilder`, with the calls made on it recorded. */
  class NacosPropertySourceBuilder {
    const configService: ConfigService
    const timeout: int
    /** The `build` calls made so far, in order. */
    ghost var requests: seq<Request>

    constructor (configService: ConfigService, timeout: int)
      ensures this.configService == configService
      ensures this.timeout == timeout
      ensures requests == []
    {
      this.configService := configService;
      this.timeout := timeout;
      requests := [];
    }

    /** The document `dataId` of `group`, parsed as `fileExtension`, or
        None where the Java builder returns null. */
    method Build(dataId: string, group: string, fileExtension: string) returns (ps: Option<Layer>)
      modifies this
      ensures ps == configService.fetch(dataId, group, fileExtension)
      ensures requests == old(requests) + [Request(dataId, group, fileExtension)]
    {
      ps := configService.fetch(dataId, group, fileExtension);
      requests := requests + [Request(dataId, group, fileExtension)];
    }
  }

  class NacosPropertySourceLocator {
    const nacosConfigProperties: NacosConfigProperties
    var nacosPropertySourceBuilder: NacosPropertySourceBuilder?

    constructor (nacosConfigProperties: NacosConfigProperties)
      ensures this.nacosConfigProperties == nacosConfigProperties
      ensures nacosPropertySourceBuilder == null
    {
      this.nacosConfigProperties := nacosConfigProperties;
      nacosPropertySourceBuilder := null;
    }

    /** Without a config service, returns null and requests nothing.
        Otherwise installs a fresh builder and returns a fresh composite
        named "NACOS" (possibly with no sources) holding the found layers
        in reverse request order; the builder has seen exactly the base
        request followed by one request per active profile. */
    method Locate() returns (r: CompositePropertySource?)
      modifies this
      ensures nacosConfigProperties.configService.None? ==>
        r == null && nacosPropertySourceBuilder == old(nacosPropertySourceBuilder)
      ensures nacosConfigProperties.configService.Some? ==>
        && r != null && fresh(r)
        && r.name == NACOS_PROPERTY_SOURCE_NAME
        && r.sources == LocatedSources(nacosConfigProperties)
        && nacosPropertySourceBuilder != null && fresh(nacosPropertySourceBuilder)
        && nacosPropertySourceBuilder.timeout == nacosConfigProperties.timeout
        && nacosPropertySourceBuilder.requests
           == Requests(LocatedDataIds(nacosConfigProperties), nacosConfigProperties.group,
                       nacosConfigProperties.fileExtension)
    {
      var configService := nacosConfigProperties.configService;
      if configService.None? {
        return null;
      }
      var timeout := nacosConfigProperties.timeout;
      nacosPropertySourceBuilder := new NacosPropertySourceBuilder(configService.value, timeout);

      var name := nacosConfigProperties.name;
      var nacosGroup := nacosConfigProperties.group;
      var dataIdPrefix: string;
      if IsEmpty(nacosConfigProperties.prefix) {
        dataIdPrefix := name;
      } else {
        dataIdPrefix := nacosConfigProperties.prefix.value;
      }
      var fileExtension := nacosConfigProperties.fileExtension;

      var composite := new CompositePropertySource(NACOS_PROPERTY_SOURCE_NAME);
      LoadApplicationConfiguration(composite, nacosGroup, dataIdPrefix, fileExtension);
      return composite;
    }

    /** Loads the base document, then one document per active profile in
        declaration order; each found layer is put in front. */
    method LoadApplicationConfiguration(composite: CompositePropertySource, nacosGroup: string,
                                        dataIdPrefix: string, fileExtension: string)
      requires nacosPropertySourceBuilder != null
      modifies composite, nacosPropertySourceBuilder
      ensures
        var ids := RequestedDataIds(dataIdPrefix, fileExtension, nacosConfigProperties.activeProfiles);
        && composite.sources
           == Reverse(Found(ids, nacosGroup, fileExtension, nacosPropertySourceBuilder.configService.fetch))
              + old(composite.sources)
        && nacosPropertySourceBuilder.requests
           == old(nacosPropertySourceBuilder.requests) + Requests(ids, nacosGroup, fileExtension)
    {
      var builder := nacosPropertySourceBuilder;
      var profiles := nacosConfigProperties.activeProfiles;
      ghost var fetch := builder.configService.fetch;
      ghost var base := BaseDataId(dataIdPrefix, fileExtension);
      assert RequestedDataIds(dataIdPrefix, fileExtension, []) == [] + [base];
      ReversedFoundSnoc([], base, nacosGroup, fileExtension, fetch, composite.sources);
      RequestsSnoc([], base, nacosGroup, fileExtension);

      LoadNacosDataIfPresent(composite, dataIdPrefix + DOT + fileExtension, nacosGroup, fileExtension);
      for k := 0 to |profiles|
        invariant composite.sources
                  == Reverse(Found(RequestedDataIds(dataIdPrefix, fileExtension, profiles[..k]),
                                   nacosGroup, fileExtension, fetch)) + old(composite.sources)
        invariant builder.requests
                  == old(builder.requests)
                     + Requests(RequestedDataIds(dataIdPrefix, fileExtension, profiles[..k]), nacosGroup, fileExtension)
      {
        var dataId := dataIdPrefix + SEP1 + profiles[k] + DOT + fileExtension;
        LoadProfileStep(dataIdPrefix, fileExtension, nacosGroup, fetch, profiles, k, old(composite.sources));
        LoadNacosDataIfPresent(composite, dataId, nacosGroup, fileExtension);
      }
      assert profiles[..|profiles|] == profiles;
    }

    /** Asks the builder for one document; a non-null result becomes the
        first source, a null result leaves the composite unchanged. */
    method LoadNacosDataIfPresent(composite: CompositePropertySource, dataId: string,
                                  group: string, fileExtension: string)
      requires nacosPropertySourceBuilder != null
      modifies composite, nacosPropertySourceBuilder
      ensures nacosPropertySourceBuilder.configService.fetch(dataId, group, fileExtension).None? ==>
        composite.sources == old(composite.sources)
      ensures nacosPropertySourceBuilder.configService.fetch(dataId, group, fileExtension).Some? ==>
        composite.sources
        == [nacosPropertySourceBuilder.configService.fetch(dataId, group, fileExtension).value] + old(composite.sources)
      ensures nacosPropertySourceBuilder.requests
        == old(nacosPropertySourceBuilder.requests) + [Request(dataId, group, fileExtension)]
    {
      var ps := nacosPropertySourceBuilder.Build(dataId, group, fileExtension);
      if ps.Some? {
        composite.AddFirstPropertySource(ps.value);
      }
    }
  }
}
