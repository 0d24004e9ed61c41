/**
 * The fetched layers of one load, as values: which documents the builder
 * returned (in request order) and the reversal that front insertion
 * produces in the composite.
 */
module Layers {
  import opened Wrappers

  /** One property source: configuration key to value. */
  type Layer = map<string, string>

  /** `NacosPropertySourceBuilder.build(dataId, group, fileExtension)`:
      a layer, or None where the Java builder returns null. */
  type Fetch = (string, string, string) -> Option<Layer>

  /** The non-null fetch results for `ids`, in request order. */
  function Found(ids: seq<string>, group: string, ext: string, fetch: Fetch): (found: seq<Layer>)
    ensures |found| <= |ids|
  {
    if ids == [] then []
    else
      var rest := Found(ids[1..], group, ext, fetch);
      match fetch(ids[0], group, ext)
      case Some(l) => [l] + rest
      case None => rest
  }

  /** The found layers are exactly the non-null fetch results: each one was
      returned for some requested id, and each non-null result is among them. */
  lemma {:induction false} FoundMembers(ids: seq<string>, group: string, ext: string, fetch: Fetch)
    ensures forall l :: l in Found(ids, group, ext, fetch) ==>
      exists i :: 0 <= i < |ids| && fetch(ids[i], group, ext) == Some(l)
    ensures forall i :: 0 <= i < |ids| && fetch(ids[i], group, ext).Some? ==>
      fetch(ids[i], group, ext).value in Found(ids, group, ext, fetch)
  {
    if ids != [] {
      FoundMembers(ids[1..], group, ext, fetch);
      assert forall i :: 1 <= i < |ids| ==> ids[i] == ids[1..][i - 1];
    }
  }

  /** Fetching one more id extends the found layers by its result, if any. */
  lemma {:induction false} FoundSnoc(ids: seq<string>, id: string, group: string, ext: string, fetch: Fetch)
    ensures fetch(id, group, ext).None? ==> Found(ids + [id], group, ext, fetch) == Found(ids, group, ext, fetch)
    ensures fetch(id, group, ext).Some? ==>
      Found(ids + [id], group, ext, fetch) == Found(ids, group, ext, fetch) + [fetch(id, group, ext).value]
  {
    if ids != [] {
      assert (ids + [id])[1..] == ids[1..] + [id];
      FoundSnoc(ids[1..], id, group, ext, fetch);
    }
  }

  /** A request whose fetch returns null contributes nothing: the found
      layers are those of the same request sequence without it. */
  lemma {:induction false} FoundSkipsMissing(ids: seq<string>, k: nat, group: string, ext: string, fetch: Fetch)
    requires k < |ids|
    requires fetch(ids[k], group, ext).None?
    ensures Found(ids, group, ext, fetch) == Found(ids[..k] + ids[k + 1..], group, ext, fetch)
  {
    if k > 0 {
      FoundSkipsMissing(ids[1..], k - 1, group, ext, fetch);
      assert ids[..k] + ids[k + 1..] == [ids[0]] + (ids[1..][..k - 1] + ids[1..][k..]);
    } else {
      assert ids[..k] + ids[k + 1..] == ids[1..];
    }
  }

  /** Nothing is found exactly when every fetch returns null. */
  lemma {:induction false} FoundEmptyIff(ids: seq<string>, group: string, ext: string, fetch: Fetch)
    ensures Found(ids, group, ext, fetch) == []
        <==> forall i :: 0 <= i < |ids| ==> fetch(ids[i], group, ext).None?
  {
    if ids != [] {
      FoundEmptyIff(ids[1..], group, ext, fetch);
      assert forall i :: 1 <= i < |ids| ==> ids[i] == ids[1..][i - 1];
    }
  }

  /** When the first request succeeds its layer is the first one found;
      when the last request succeeds its layer is the last one found. */
  lemma {:induction false} FoundEnds(ids: seq<string>, group: string, ext: string, fetch: Fetch)
    requires ids != []
    ensures fetch(ids[0], group, ext).Some? ==>
      Found(ids, group, ext, fetch) != [] && Found(ids, group, ext, fetch)[0] == fetch(ids[0], group, ext).value
    ensures fetch(ids[|ids| - 1], group, ext).Some? ==>
      var f := Found(ids, group, ext, fetch);
      f != [] && f[|f| - 1] == fetch(ids[|ids| - 1], group, ext).value
  {
    var init := ids[..|ids| - 1];
    assert ids == init + [ids[|ids| - 1]];
    FoundSnoc(init, ids[|ids| - 1], group, ext, fetch);
  }

  /** One more request, seen from the composite: a found layer goes in front
      of what was there, a missing one changes nothing. */
  lemma ReversedFoundSnoc(ids: seq<string>, id: string, group: string, ext: string, fetch: Fetch, tail: seq<Layer>)
    ensures fetch(id, group, ext).None? ==>
      Reverse(Found(ids + [id], group, ext, fetch)) + tail == Reverse(Found(ids, group, ext, fetch)) + tail
    ensures fetch(id, group, ext).Some? ==>
      Reverse(Found(ids + [id], group, ext, fetch)) + tail
      == [fetch(id, group, ext).value] + (Reverse(Found(ids, group, ext, fetch)) + tail)
  {
    FoundSnoc(ids, id, group, ext, fetch);
    if fetch(id, group, ext).Some? {
      ReverseSnoc(Found(ids, group, ext, fetch), fetch(id, group, ext).value);
    }
  }

  /** The sequence in reverse order. */
  function Reverse<T>(s: seq<T>): (r: seq<T>)
    ensures |r| == |s|
    ensures multiset(r) == multiset(s)
  {
    if s == [] then []
    else
      assert s == [s[0]] + s[1..];
      Reverse(s[1..]) + [s[0]]
  }

  /** Reversal keeps the elements and mirrors their positions. */
  lemma {:induction false} ReverseAt<T>(s: seq<T>, k: nat)
    requires k < |s|
    ensures |Reverse(s)| == |s|
    ensures Reverse(s)[k] == s[|s| - 1 - k]
  {
    if k < |s| - 1 {
      ReverseAt(s[1..], k);
    } else if |s| > 1 {
      ReverseAt(s[1..], 0);
    }
  }

  /** Appending at the back of the sequence prepends to its reversal: this
      is how front insertion turns the request order around. */
  lemma {:induction false} ReverseSnoc<T>(s: seq<T>, x: T)
    ensures Reverse(s + [x]) == [x] + Reverse(s)
  {
    if s != [] {
      assert (s + [x])[1..] == s[1..] + [x];
      ReverseSnoc(s[1..], x);
    }
  }
}
