/**
 * Data-id (resource key) construction of the Nacos config client:
 * the base document is `prefix.ext`, a profile document is
 * `prefix-profile.ext`, and the prefix falls back to the application name.
 */
module DataIds {
  import opened Wrappers

  /** Separator between the prefix and the profile (`SEP1`). */
  const SEP1: string := "-"
  /** Separator in front of the file extension (`DOT`). */
  const DOT: string := "."

  /** Spring's `StringUtils.isEmpty`: a null (None) or empty string. */
  function IsEmpty(s: Option<string>): (empty: bool)
    ensures !empty <==> s.Some? && |s.value| > 0
  {
    s.None? || s.value == ""
  }

  /** The data-id prefix actually used: the configured prefix, or the
      application name when the configured prefix is empty. */
  function EffectivePrefix(prefix: Option<string>, name: string): (r: string)
    ensures IsEmpty(prefix) ==> r == name
    ensures !IsEmpty(prefix) ==> r == prefix.value
    ensures r == "" <==> IsEmpty(prefix) && name == ""
  {
    if IsEmpty(prefix) then name else prefix.value
  }

  /** The data id of the profile-less document: `prefix.ext`. */
  function BaseDataId(prefix: string, ext: string): (id: string)
    ensures |id| == |prefix| + 1 + |ext|
  {
    prefix + DOT + ext
  }

  /** The data id of the document for one profile: `prefix-profile.ext`. */
  function ProfileDataId(prefix: string, profile: string, ext: string): (id: string)
    ensures |id| == |prefix| + 1 + |profile| + 1 + |ext|
  {
    prefix + SEP1 + profile + DOT + ext
  }

  /** A base data id reads back into its parts: the prefix, a dot, the
      extension. */
  lemma BaseDataIdParts(prefix: string, ext: string)
    ensures var id := BaseDataId(prefix, ext);
      && |id| == |prefix| + 1 + |ext|
      && id[..|prefix|] == prefix
      && id[|prefix|] == '.'
      && id[|prefix| + 1..] == ext
  {
  }

  /** A profile data id reads back into its parts: the prefix, a dash, the
      profile, a dot, the extension. */
  lemma ProfileDataIdParts(prefix: string, profile: string, ext: string)
    ensures var id := ProfileDataId(prefix, profile, ext);
      && |id| == |prefix| + 1 + |profile| + 1 + |ext|
      && id[..|prefix|] == prefix
      && id[|prefix|] == '-'
      && id[|prefix| + 1..|prefix| + 1 + |profile|] == profile
      && id[|prefix| + 1 + |profile|] == '.'
      && id[|prefix| + 2 + |profile|..] == ext
  {
  }

  /** A profile data id is never the base data id of the same prefix: it is
      strictly longer, and it differs from every base id of that prefix (of
      any extension) right after the prefix, where it has '-' and not '.'. */
  lemma ProfileDataIdIsNotBase(prefix: string, profile: string, ext: string, ext': string)
    ensures |ProfileDataId(prefix, profile, ext)| > |BaseDataId(prefix, ext)|
    ensures ProfileDataId(prefix, profile, ext) != BaseDataId(prefix, ext')
  {
    ProfileDataIdParts(prefix, profile, ext);
    BaseDataIdParts(prefix, ext);
    BaseDataIdParts(prefix, ext');
    var p, b := ProfileDataId(prefix, profile, ext), BaseDataId(prefix, ext');
    assert p[|prefix|] != b[|prefix|];
  }

  /** For a fixed prefix and extension, distinct profiles give distinct data ids. */
  lemma ProfileDataIdInjective(prefix: string, profile: string, profile': string, ext: string)
    requires ProfileDataId(prefix, profile, ext) == ProfileDataId(prefix, profile', ext)
    ensures profile == profile'
  {
    var id := ProfileDataId(prefix, profile, ext);
    ProfileDataIdParts(prefix, profile, ext);
    ProfileDataIdParts(prefix, profile', ext);
    assert |profile| == |profile'|;
    assert profile == id[|prefix| + 1..|prefix| + 1 + |profile|] == profile';
  }

  /** Two instances of the naming scheme: ("app", none, "yaml") and
      ("app", "dev", "yaml"). */
  lemma DataIdExamples()
    ensures BaseDataId("app", "yaml") == "app.yaml"
    ensures ProfileDataId("app", "dev", "yaml") == "app-dev.yaml"
  {
  }

  /** Injectivity does not extend across prefixes: the "dev" profile id of
      prefix "app" is the base id of prefix "app-dev", and a different
      split between prefix and profile gives the same id again. */
  lemma DataIdsCollideAcrossPrefixes()
    ensures ProfileDataId("app", "dev", "yaml") == BaseDataId("app-dev", "yaml")
    ensures ProfileDataId("app", "dev-eu", "yaml") == ProfileDataId("app-dev", "eu", "yaml")
  {
  }

  /** The data ids of the profile documents, one per profile, in order. */
  function ProfileDataIds(prefix: string, ext: string, profiles: seq<string>): (ids: seq<string>)
    ensures |ids| == |profiles|
    ensures forall i :: 0 <= i < |profiles| ==> ids[i] == ProfileDataId(prefix, profiles[i], ext)
  {
    if profiles == [] then []
    else [ProfileDataId(prefix, profiles[0], ext)] + ProfileDataIds(prefix, ext, profiles[1..])
  }

  /** The data ids requested by one load, in request order: the base id
      first, then one id per active profile in declaration order, with
      repeated profiles requested again. */
  function RequestedDataIds(prefix: string, ext: string, profiles: seq<string>): (ids: seq<string>)
    ensures |ids| == 1 + |profiles|
    ensures ids[0] == BaseDataId(prefix, ext)
    ensures forall i :: 1 <= i < |ids| ==> ids[i] == ProfileDataId(prefix, profiles[i - 1], ext)
  {
    [BaseDataId(prefix, ext)] + ProfileDataIds(prefix, ext, profiles)
  }

  /** One more active profile adds its data id at the end of the requests. */
  lemma RequestedDataIdsSnoc(prefix: string, ext: string, profiles: seq<string>, profile: string)
    ensures RequestedDataIds(prefix, ext, profiles + [profile])
         == RequestedDataIds(prefix, ext, profiles) + [ProfileDataId(prefix, profile, ext)]
  {
    var a, b := RequestedDataIds(prefix, ext, profiles + [profile]),
                RequestedDataIds(prefix, ext, profiles) + [ProfileDataId(prefix, profile, ext)];
    assert |a| == |b|;
    forall i | 0 <= i < |a| ensures a[i] == b[i] {
      if 0 < i < |a| - 1 {
        assert (profiles + [profile])[i - 1] == profiles[i - 1];
      }
    }
  }

  /** Two requested ids coincide exactly when both come from the same
      profile name: the base id is requested once, a repeated profile is
      requested once per occurrence, and distinct profiles give distinct ids. */
  lemma RequestedDataIdsEqualIff(prefix: string, ext: string, profiles: seq<string>, i: nat, j: nat)
    requires i < j <= |profiles|
    ensures RequestedDataIds(prefix, ext, profiles)[i] == RequestedDataIds(prefix, ext, profiles)[j]
        <==> 0 < i && profiles[i - 1] == profiles[j - 1]
  {
    var ids := RequestedDataIds(prefix, ext, profiles);
    if i == 0 {
      ProfileDataIdIsNotBase(prefix, profiles[j - 1], ext, ext);
    } else if ids[i] == ids[j] {
      ProfileDataIdInjective(prefix, profiles[i - 1], profiles[j - 1], ext);
    }
  }
}
