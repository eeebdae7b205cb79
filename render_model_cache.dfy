/** The render-model cache of findOrLoadRenderModel (src/ofxOpenVR.cpp):
    a list of loaded models, searched by name with stricmp (ASCII
    case-insensitive comparison) and grown by one model on a successful
    load. A cached model is identified by the name it was loaded under. */
module RenderModelCache {
  import opened Optional
  import opened VrSdk

  /** tolower for the ASCII letters; every other character is unchanged. */
  function ToLower(c: char): (r: char)
    ensures 'A' <= c <= 'Z' ==> r as int == c as int + 32
    ensures !('A' <= c <= 'Z') ==> r == c
  {
    if 'A' <= c <= 'Z' then (c as int + 32) as char else c
  }

  /** A name with every ASCII letter lowered. */
  function Lowered(s: string): (r: string)
    ensures |r| == |s|
  {
    seq(|s|, i requires 0 <= i < |s| => ToLower(s[i]))
  }

  /** stricmp(a, b) == 0: the two names are equal once both are lowered.
      Matching names have the same length, and every name matches itself. */
  predicate SameNameIgnoringCase(a: string, b: string)
    ensures SameNameIgnoringCase(a, b) ==> |a| == |b|
    ensures a == b ==> SameNameIgnoringCase(a, b)
  {
    Lowered(a) == Lowered(b)
  }

  /** Equal once lowered means the same length and equal character by
      character after tolower, which is what stricmp compares. */
  lemma SameNameIsCharwise(a: string, b: string)
    ensures SameNameIgnoringCase(a, b) <==>
      |a| == |b| && forall i :: 0 <= i < |a| ==> ToLower(a[i]) == ToLower(b[i])
  {
    if |a| == |b| && forall i :: 0 <= i < |a| ==> ToLower(a[i]) == ToLower(b[i]) {
      assert Lowered(a) == Lowered(b);
    }
    if SameNameIgnoringCase(a, b) {
      forall i | 0 <= i < |a| ensures ToLower(a[i]) == ToLower(b[i]) {
        assert Lowered(a)[i] == Lowered(b)[i];
      }
    }
  }

  /** The comparison is an equivalence: reflexive, symmetric, transitive. */
  lemma SameNameIsEquivalence(a: string, b: string, c: string)
    ensures SameNameIgnoringCase(a, a)
    ensures SameNameIgnoringCase(a, b) ==> SameNameIgnoringCase(b, a)
    ensures SameNameIgnoringCase(a, b) && SameNameIgnoringCase(b, c) ==> SameNameIgnoringCase(a, c)
  {
  }

  /** Some cached model answers to `name`. */
  predicate HasModelNamed(models: seq<string>, name: string)
  {
    exists i :: 0 <= i < |models| && SameNameIgnoringCase(models[i], name)
  }

  /** No two cached models answer to the same name. */
  predicate DistinctIgnoringCase(models: seq<string>)
  {
    forall i, j :: 0 <= i < j < |models| ==> !SameNameIgnoringCase(models[i], models[j])
  }

  /** The index of the first cached model whose name matches, or None when
      none does. */
  function ModelIndex(models: seq<string>, name: string): (r: Option<nat>)
    ensures r.Some? <==> HasModelNamed(models, name)
    ensures r.Some? ==> r.value < |models| && SameNameIgnoringCase(models[r.value], name)
    ensures r.Some? ==> forall j :: 0 <= j < r.value ==> !SameNameIgnoringCase(models[j], name)
  {
    if models == [] then None
    else
      var init := models[..|models| - 1];
      var i := ModelIndex(init, name);
      if i.Some? then assert init[i.value] == models[i.value]; i
      else if SameNameIgnoringCase(models[|models| - 1], name) then Some(|models| - 1)
      else assert forall j :: 0 <= j < |init| ==> init[j] == models[j]; None
  }

  /** A model appended after a miss is the first match for its name. */
  lemma ModelIndexOfAppended(models: seq<string>, name: string)
    requires !HasModelNamed(models, name)
    ensures ModelIndex(models + [name], name) == Some(|models|)
  {
    assert (models + [name])[..|models|] == models;
  }

  /** The search loop of findOrLoadRenderModel: the first cached model whose
      name matches, or None when none does. */
  method FindRenderModel(models: seq<string>, name: string) returns (r: Option<nat>)
    ensures r == ModelIndex(models, name)
    ensures r.Some? ==> r.value < |models| && SameNameIgnoringCase(models[r.value], name)
    ensures r.Some? ==> forall j :: 0 <= j < r.value ==> !SameNameIgnoringCase(models[j], name)
    ensures r.None? <==> !HasModelNamed(models, name)
  {
    var i := 0;
    while i < |models|
      invariant 0 <= i <= |models|
      invariant forall j :: 0 <= j < i ==> !SameNameIgnoringCase(models[j], name)
    {
      if SameNameIgnoringCase(models[i], name) {
        return Some(i);
      }
      i := i + 1;
    }
    return None;
  }

  /** The cache after findOrLoadRenderModel(name): unchanged on a hit; on a
      miss, grown by the new model when the model load, the texture load and
      the GL upload all succeed, unchanged otherwise. */
  function CacheAfterLookup(models: seq<string>, name: string, load: LoadOutcome): (r: seq<string>)
    ensures models <= r && |r| <= |models| + 1
  {
    if HasModelNamed(models, name) then models
    else if load == Loaded then models + [name]
    else models
  }

  /** A lookup appends at most one model, keeps the earlier ones in place,
      and afterwards the cache holds a model for `name` unless the load failed. */
  lemma LookupGrowsByAtMostOne(models: seq<string>, name: string, load: LoadOutcome)
    ensures var r := CacheAfterLookup(models, name, load);
      && models <= r && |r| <= |models| + 1
      && (HasModelNamed(r, name) <==> HasModelNamed(models, name) || load == Loaded)
  {
    var r := CacheAfterLookup(models, name, load);
    if !HasModelNamed(models, name) && load == Loaded {
      SameNameIsEquivalence(name, name, name);
      assert SameNameIgnoringCase(r[|models|], name);
    }
  }

  /** Because a model is only appended after a miss, the cache never holds
      two models under the same name. */
  lemma LookupKeepsNamesDistinct(models: seq<string>, name: string, load: LoadOutcome)
    requires DistinctIgnoringCase(models)
    ensures DistinctIgnoringCase(CacheAfterLookup(models, name, load))
  {
    var r := CacheAfterLookup(models, name, load);
    if !HasModelNamed(models, name) && load == Loaded {
      forall i, j | 0 <= i < j < |r| ensures !SameNameIgnoringCase(r[i], r[j]) {
        if j == |models| {
          assert r[i] == models[i];
          assert !SameNameIgnoringCase(models[i], name);
        }
      }
    }
  }

  /** Looking the same name up again is a hit: the second lookup never
      loads and never grows the cache. */
  lemma SecondLookupHits(models: seq<string>, name: string, load: LoadOutcome, load': LoadOutcome)
    requires load == Loaded || HasModelNamed(models, name)
    ensures var r := CacheAfterLookup(models, name, load);
      HasModelNamed(r, name) && CacheAfterLookup(r, name, load') == r
  {
    LookupGrowsByAtMostOne(models, name, load);
  }

  /** One call of findOrLoadRenderModel: the name asked for, and how loading
      it would end if the cache misses. */
  datatype ModelRequest = ModelRequest(name: string, load: LoadOutcome)

  /** The cache after a sequence of lookups, in order. */
  function CacheAfterLookups(models: seq<string>, requests: seq<ModelRequest>): (r: seq<string>)
    ensures models <= r && |r| <= |models| + |requests|
  {
    if requests == [] then models
    else
      var last := requests[|requests| - 1];
      CacheAfterLookup(CacheAfterLookups(models, requests[..|requests| - 1]), last.name, last.load)
  }

  /** Lookups only ever append, one model at most per lookup, and never
      create two models under one name. */
  lemma {:induction false} LookupsOnlyAppend(models: seq<string>, requests: seq<ModelRequest>)
    requires DistinctIgnoringCase(models)
    ensures var r := CacheAfterLookups(models, requests);
      models <= r && |r| <= |models| + |requests| && DistinctIgnoringCase(r)
    decreases |requests|
  {
    if requests != [] {
      var init := requests[..|requests| - 1];
      var last := requests[|requests| - 1];
      LookupsOnlyAppend(models, init);
      LookupGrowsByAtMostOne(CacheAfterLookups(models, init), last.name, last.load);
      LookupKeepsNamesDistinct(CacheAfterLookups(models, init), last.name, last.load);
    }
  }

  /** Lookups compose: running two batches one after the other is running
      their concatenation. */
  lemma {:induction false} CacheAfterLookupsAppend(models: seq<string>, first: seq<ModelRequest>, second: seq<ModelRequest>)
    ensures CacheAfterLookups(models, first + second) == CacheAfterLookups(CacheAfterLookups(models, first), second)
    decreases |second|
  {
    if second != [] {
      var init := second[..|second| - 1];
      assert (first + second)[..|first + second| - 1] == first + init;
      CacheAfterLookupsAppend(models, first, init);
    } else {
      assert first + second == first;
    }
  }

}
