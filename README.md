# Nacos property source locator, modelled in Dafny

This project models how the Nacos config client for Spring Cloud Alibaba
finds an application's remote configuration at bootstrap, and proves
properties of that model. `NacosPropertySourceLocator.locate` does three
things:

- It picks the data-id prefix: the configured prefix, or the application
  name when the prefix is empty.
- It requests the base document `prefix.ext`, then one document
  `prefix-profile.ext` per active profile, in declaration order.
- It puts every document the property source builder returns in front of a
  composite property source named `NACOS`.

When there is no `ConfigService`, `locate` returns null and fetches nothing.

The model has five files:

- `wrappers.dfy`: `Option`. It stands for Java's `null`.
- `data_ids.dfy` (module `DataIds`): the pure part. It covers prefix
  defaulting, building the data-id strings from the constants `SEP1 = "-"`
  and `DOT = "."`, and the sequence of requested ids. The lemmas about these
  are: the parts an id reads back into; a profile id is never a base id; for
  a fixed prefix and extension, profile ids are injective; two requested ids
  are equal exactly when they come from the same profile name.
- `layers.dfy` (module `Layers`): a layer is a `map<string, string>`. `Fetch`
  is the builder's `build(dataId, group, fileExtension)`, abstracted as a
  function that returns a layer or None. `Found` is the list of non-null
  results in request order, and `Reverse` is what front insertion makes of
  that list.
- `precedence.dfy` (module `Precedence`): the first-match lookup of Spring's
  `CompositePropertySource`. That class is not part of this model, so the
  lookup is stated here as an explicit assumption. From it the module proves
  that reading the composite gives the same answer as a last-wins merge of
  the found layers in request order. So the last profile wins, and profiles
  win over the base.
- `locator.dfy` (module `Locator`): the imperative code, as classes.
  - `CompositePropertySource` has a `sources` sequence and
    `AddFirstPropertySource`.
  - `NacosPropertySourceBuilder` holds a ghost log of the `build` calls made
    on it.
  - `NacosPropertySourceLocator` has `Locate`, `LoadApplicationConfiguration`
    (a loop over the active profiles) and `LoadNacosDataIfPresent`. Each
    method's postcondition gives the new composite and the builder's call log
    in terms of the value functions above.

`Locate`'s result depends only on the configuration properties, which include
the fetch function. So two `Locate` calls with the same properties and the
same remote content give the same composite.

Three points about what the code promises, and what it does not:

- Without a config service, `locate` returns `null`
  (`NacosPropertySourceLocator.java:54-58`), not an empty composite.
- Data ids are injective only for a fixed prefix and extension. Across
  prefixes they are not: the `dev` profile id of prefix `app` is the base id
  of prefix `app-dev`. `DataIds.DataIdsCollideAcrossPrefixes` shows this.
- There is no skipping on fetch or parse errors. The locator only skips
  null results. Anything else happens in the builder, which is not part of
  this model.

## Model

| member | source | states |
|---|---|---|
| `DataIds.EffectivePrefix` | spring-cloud-alibaba-nacos-config/src/main/java/org/springframework/cloud/alibaba/nacos/client/NacosPropertySourceLocator.java:66-69 | A null or empty configured prefix is replaced by the application name; otherwise the configured prefix is kept. The result is empty exactly when both are empty. |
| `DataIds.IsEmpty` | spring-cloud-alibaba-nacos-config/src/main/java/org/springframework/cloud/alibaba/nacos/client/NacosPropertySourceLocator.java:67 | This is `StringUtils.isEmpty`: a configured prefix is not empty exactly when it is non-null and has at least one character. |
| `DataIds.BaseDataId` | spring-cloud-alibaba-nacos-config/src/main/java/org/springframework/cloud/alibaba/nacos/client/NacosPropertySourceLocator.java:84-85 | The base data id is `prefix + DOT + ext`. The contract gives its length `|prefix| + 1 + |ext|`, and `DataIds.BaseDataIdParts` gives its full readback. |
| `DataIds.ProfileDataId` | spring-cloud-alibaba-nacos-config/src/main/java/org/springframework/cloud/alibaba/nacos/client/NacosPropertySourceLocator.java:87 | A profile data id is `prefix + SEP1 + profile + DOT + ext`. The contract gives its length `|prefix| + |profile| + |ext| + 2`, and `DataIds.ProfileDataIdParts` gives its full readback. |
| `DataIds.BaseDataIdParts` | spring-cloud-alibaba-nacos-config/src/main/java/org/springframework/cloud/alibaba/nacos/client/NacosPropertySourceLocator.java:84-85 | The base data id reads back as the prefix, then '.', then the extension, with length `|prefix| + 1 + |ext|`. |
| `DataIds.ProfileDataIdParts` | spring-cloud-alibaba-nacos-config/src/main/java/org/springframework/cloud/alibaba/nacos/client/NacosPropertySourceLocator.java:87 | A profile data id reads back as the prefix, '-', the profile, '.', the extension, with length `|prefix| + |profile| + |ext| + 2`. |
| `DataIds.ProfileDataIdIsNotBase` | spring-cloud-alibaba-nacos-config/src/main/java/org/springframework/cloud/alibaba/nacos/client/NacosPropertySourceLocator.java:84-87 | A profile data id is strictly longer than the base id for the same prefix and extension. It differs from the base id of that prefix for every extension. |
| `DataIds.ProfileDataIdInjective` | spring-cloud-alibaba-nacos-config/src/main/java/org/springframework/cloud/alibaba/nacos/client/NacosPropertySourceLocator.java:87 | For a fixed prefix and extension, equal profile data ids come from equal profiles. |
| `DataIds.DataIdExamples` | spring-cloud-alibaba-nacos-config/src/main/java/org/springframework/cloud/alibaba/nacos/client/NacosPropertySourceLocator.java:84-87 | `("app", "yaml")` gives `app.yaml`, and `("app", "dev", "yaml")` gives `app-dev.yaml`. |
| `DataIds.DataIdsCollideAcrossPrefixes` | spring-cloud-alibaba-nacos-config/src/main/java/org/springframework/cloud/alibaba/nacos/client/NacosPropertySourceLocator.java:84-87 | Ids from different prefixes can coincide: a profile id can equal another prefix's base id, and one profile id can come from two prefix/profile splits. |
| `DataIds.ProfileDataIds` | spring-cloud-alibaba-nacos-config/src/main/java/org/springframework/cloud/alibaba/nacos/client/NacosPropertySourceLocator.java:86-88 | There is one profile data id per active profile, and id `i` belongs to profile `i`. |
| `DataIds.RequestedDataIds` | spring-cloud-alibaba-nacos-config/src/main/java/org/springframework/cloud/alibaba/nacos/client/NacosPropertySourceLocator.java:84-90 | `1 + |profiles|` ids are requested: the base id first, then the profile ids in declaration order. |
| `DataIds.RequestedDataIdsSnoc` | spring-cloud-alibaba-nacos-config/src/main/java/org/springframework/cloud/alibaba/nacos/client/NacosPropertySourceLocator.java:86-90 | One more active profile appends exactly its own data id to the requested ids. |
| `DataIds.RequestedDataIdsEqualIff` | spring-cloud-alibaba-nacos-config/src/main/java/org/springframework/cloud/alibaba/nacos/client/NacosPropertySourceLocator.java:84-90 | Two positions of the request sequence hold the same id exactly when both hold profiles with the same name. The base id is requested once. A repeated profile is requested again, with no deduplication. |
| `Layers.Found` | spring-cloud-alibaba-nacos-config/src/main/java/org/springframework/cloud/alibaba/nacos/client/NacosPropertySourceLocator.java:95-99 | These are the non-null `build` results in request order; null results are skipped (`:97`). There are never more of them than requests. `Layers.FoundMembers` and `Layers.FoundSnoc` characterise them exactly. |
| `Layers.FoundMembers` | spring-cloud-alibaba-nacos-config/src/main/java/org/springframework/cloud/alibaba/nacos/client/NacosPropertySourceLocator.java:95-99 | Every found layer is the non-null result of some request, and every non-null result is among the found layers. |
| `Layers.FoundSnoc` | spring-cloud-alibaba-nacos-config/src/main/java/org/springframework/cloud/alibaba/nacos/client/NacosPropertySourceLocator.java:95-99 | One more request adds its result at the end of the found layers when it is non-null, and adds nothing when it is null. |
| `Layers.FoundSkipsMissing` | spring-cloud-alibaba-nacos-config/src/main/java/org/springframework/cloud/alibaba/nacos/client/NacosPropertySourceLocator.java:97-99 | A request whose result is null can be removed from the request sequence without changing the found layers. |
| `Layers.FoundEmptyIff` | spring-cloud-alibaba-nacos-config/src/main/java/org/springframework/cloud/alibaba/nacos/client/NacosPropertySourceLocator.java:95-99 | No layer is found exactly when every request returns null. |
| `Layers.FoundEnds` | spring-cloud-alibaba-nacos-config/src/main/java/org/springframework/cloud/alibaba/nacos/client/NacosPropertySourceLocator.java:84-99 | A non-null first result is the first found layer. A non-null last result is the last found layer. |
| `Layers.ReversedFoundSnoc` | spring-cloud-alibaba-nacos-config/src/main/java/org/springframework/cloud/alibaba/nacos/client/NacosPropertySourceLocator.java:95-99 | Seen from the composite, one more request puts its non-null layer in front and leaves everything else unchanged; a null result changes nothing. |
| `Layers.Reverse` | spring-cloud-alibaba-nacos-config/src/main/java/org/springframework/cloud/alibaba/nacos/client/NacosPropertySourceLocator.java:98 | This is the order that repeated front insertion produces. It keeps the length and the elements with their multiplicities; `Layers.ReverseAt` gives the mirrored positions. |
| `Layers.ReverseAt` | spring-cloud-alibaba-nacos-config/src/main/java/org/springframework/cloud/alibaba/nacos/client/NacosPropertySourceLocator.java:98 | Reversal keeps the length, and position `k` of the reversal holds position `|s| - 1 - k` of the input. |
| `Layers.ReverseSnoc` | spring-cloud-alibaba-nacos-config/src/main/java/org/springframework/cloud/alibaba/nacos/client/NacosPropertySourceLocator.java:98 | Adding an element at the back of a sequence puts it at the front of the reversal. |
| `Precedence.GetProperty` | spring-cloud-alibaba-nacos-config/src/main/java/org/springframework/cloud/alibaba/nacos/client/NacosPropertySourceLocator.java:73-74 | This is the assumed lookup of Spring's composite. It finds a value exactly when some source has the key, and the value comes from the first such source. |
| `Precedence.Merge` | spring-cloud-alibaba-nacos-config/src/main/java/org/springframework/cloud/alibaba/nacos/client/NacosPropertySourceLocator.java:84-99 | This is the reference last-wins merge of layers in request order. Its keys are the union of all layers' keys. |
| `Precedence.MergeLastWins` | spring-cloud-alibaba-nacos-config/src/main/java/org/springframework/cloud/alibaba/nacos/client/NacosPropertySourceLocator.java:84-99 | Every key of the merge takes its value from some layer `j` that holds the key, and no layer after `j` holds it. So the last layer defining a key wins. |
| `Precedence.FirstMatchOfReversedIsMerge` | spring-cloud-alibaba-nacos-config/src/main/java/org/springframework/cloud/alibaba/nacos/client/NacosPropertySourceLocator.java:93-100 | A first-match lookup over the reversed layers agrees, key by key, with the last-wins merge of the layers in order. |
| `Precedence.MergeExample` | spring-cloud-alibaba-nacos-config/src/main/java/org/springframework/cloud/alibaba/nacos/client/NacosPropertySourceLocator.java:84-99 | A base `{a:1, b:1}` with a profile layer `{b:2, c:2}` resolves to `{a:1, b:2, c:2}`. |
| `Locator.Requests` | spring-cloud-alibaba-nacos-config/src/main/java/org/springframework/cloud/alibaba/nacos/client/NacosPropertySourceLocator.java:95-96 | There is one `build` call per data id, in order, each with the given group and extension. |
| `Locator.RequestsSnoc` | spring-cloud-alibaba-nacos-config/src/main/java/org/springframework/cloud/alibaba/nacos/client/NacosPropertySourceLocator.java:95-96 | One more data id appends exactly one `build` call. |
| `Locator.LocatedDataIds` | spring-cloud-alibaba-nacos-config/src/main/java/org/springframework/cloud/alibaba/nacos/client/NacosPropertySourceLocator.java:63-90 | These are the data ids one `locate` requests: `1 + |activeProfiles|` of them, with the base id of the effective prefix first and then each profile's id in declaration order. |
| `Locator.LocatedSources` | spring-cloud-alibaba-nacos-config/src/main/java/org/springframework/cloud/alibaba/nacos/client/NacosPropertySourceLocator.java:73-99 | These are the sources of the composite that `locate` returns when a service exists: the found layers in reverse request order, at most `1 + |activeProfiles|` of them. `Locator.LocatedSourcesOrder` gives the order. |
| `Locator.LoadProfileStep` | spring-cloud-alibaba-nacos-config/src/main/java/org/springframework/cloud/alibaba/nacos/client/NacosPropertySourceLocator.java:86-90 | Loading profile `k` appends its data id to the call log. If its layer is found, the layer goes in front of the composite; otherwise the composite is unchanged. |
| `Locator.LocatedSourcesOrder` | spring-cloud-alibaba-nacos-config/src/main/java/org/springframework/cloud/alibaba/nacos/client/NacosPropertySourceLocator.java:84-99 | The composite's sources are the found layers in reverse request order, and there are at most `1 + |profiles|` of them. The composite is empty exactly when every fetch is null. A found base layer is last, and a found layer of the last profile is first. |
| `Locator.LocatedLookupIsLastWins` | spring-cloud-alibaba-nacos-config/src/main/java/org/springframework/cloud/alibaba/nacos/client/NacosPropertySourceLocator.java:93-100 | Under the assumed first-match lookup, reading the located composite gives the last-wins merge of the found layers: the last profile wins, and profiles win over the base. |
| `Locator.CompositePropertySource.constructor` | spring-cloud-alibaba-nacos-config/src/main/java/org/springframework/cloud/alibaba/nacos/client/NacosPropertySourceLocator.java:73-74 | A new composite has the given name and no sources. |
| `Locator.CompositePropertySource.AddFirstPropertySource` | spring-cloud-alibaba-nacos-config/src/main/java/org/springframework/cloud/alibaba/nacos/client/NacosPropertySourceLocator.java:98 | The new source becomes element 0, and the earlier sources follow it unchanged. |
| `Locator.NacosPropertySourceBuilder.constructor` | spring-cloud-alibaba-nacos-config/src/main/java/org/springframework/cloud/alibaba/nacos/client/NacosPropertySourceLocator.java:60-61 | The builder keeps the config service and the timeout it was given, and has had no calls yet. |
| `Locator.NacosPropertySourceBuilder.Build` | spring-cloud-alibaba-nacos-config/src/main/java/org/springframework/cloud/alibaba/nacos/client/NacosPropertySourceLocator.java:95-96 | It returns the service's result for `(dataId, group, fileExtension)`, and exactly that call is appended to the log. |
| `Locator.NacosPropertySourceLocator.constructor` | spring-cloud-alibaba-nacos-config/src/main/java/org/springframework/cloud/alibaba/nacos/client/NacosPropertySourceLocator.java:44-47 | The locator holds the injected properties and no builder yet. |
| `Locator.NacosPropertySourceLocator.Locate` | spring-cloud-alibaba-nacos-config/src/main/java/org/springframework/cloud/alibaba/nacos/client/NacosPropertySourceLocator.java:50-79 | Without a config service it returns null, keeps the builder and requests nothing. Otherwise it installs a fresh builder with the configured timeout. That builder sees exactly the base request followed by one request per profile. It returns a fresh composite named `NACOS` whose sources are the found layers in reverse order, possibly none. |
| `Locator.NacosPropertySourceLocator.LoadApplicationConfiguration` | spring-cloud-alibaba-nacos-config/src/main/java/org/springframework/cloud/alibaba/nacos/client/NacosPropertySourceLocator.java:81-91 | The composite becomes the reversed found layers of the requested ids, placed in front of its earlier sources. The builder's log grows by exactly those requests, in order. |
| `Locator.NacosPropertySourceLocator.LoadNacosDataIfPresent` | spring-cloud-alibaba-nacos-config/src/main/java/org/springframework/cloud/alibaba/nacos/client/NacosPropertySourceLocator.java:93-100 | A null result leaves the composite unchanged. A non-null result becomes element 0 and the earlier sources shift down unchanged. Exactly one call is logged. |

## Left out

- `NacosPropertySourceBuilder.build` and the Nacos `ConfigService` are not part of this model. They cover the remote fetch, the parsing of property and YAML documents, and any error handling. The model has only their result, the function `Fetch`, which is fixed for the duration of one `Locate` call.
- Locator.CompositePropertySource.AddFirstPropertySource: always prepends. Spring keeps a composite's sources in a set of sources compared by name, so re-adding a source whose name is already present would drop the older copy. That class and the builder's naming of sources are not part of this model, so the composite the model gives for repeated profiles may hold more sources than Spring's.
- Precedence.GetProperty: this is Spring's lookup as an assumption, not code of the locator. Only `Precedence`'s lemmas and `Locator.LocatedLookupIsLastWins` depend on it.
- The `timeout` value is stored in the builder and passed on, and never interpreted.
- The unused `Environment` parameter of `locate` and the `@Autowired`/`@Order` wiring are left out. The `NacosConfigProperties` getters become plain fields of a datatype.
- Java prints a null string as `"null"` when it concatenates, so a null name, extension or profile would appear in a data id that way. A null group is never concatenated: it would be passed to `build` as is. The model does not cover this. Only the prefix may be null (None), because only its nullness changes the control flow.
- The warning that is logged when there is no config service is a side effect with no behavioural content.
- Refresh listeners, concurrent fetching and deadlines are not in the locator's code.
