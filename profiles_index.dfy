/**
 * The in-memory profile index: which files are profiles, how a profile
 * gets its id, and the cache and list rebuilt by `reload_profiles`.
 */
module ProfilesIndex {
  import opened Text
  import PB = ProfileBuilder

  // ---------------------------------------------------------------
  // Profile files and ids
  // ---------------------------------------------------------------

  const ProfileSuffix: string := "_profile.json"

  /** `_is_profile_file` */
  predicate IsProfileFile(name: string)
  {
    EndsWith(Lower(name), ProfileSuffix)
  }

  /** The test ignores case, and accepts every file name the builder writes (`{stem}_profile.json`). */
  lemma ProfileFileNames(name: string, stem: string)
    ensures IsProfileFile(Lower(name)) <==> IsProfileFile(name)
    ensures IsProfileFile(stem + ProfileSuffix)
  {
    LowerIdempotent(name);
    LowerConcat(stem, ProfileSuffix);
    LowerOfLowerCase(ProfileSuffix);
    assert (Lower(stem) + ProfileSuffix)[|stem|..] == ProfileSuffix;
  }

  /** A profile document, reduced to the fields the index reads or writes. */
  datatype Doc = Doc(profileId: Option<string>, fileStem: Option<string>, fileName: Option<string>, bucket: Option<string>)

  /** The document `build_profile_for_lora` writes for a profile: it carries no `profile_id`. */
  function DocOf(p: PB.Profile): Doc
  {
    Doc(None, Some(p.file.stem), Some(p.file.name), Some(p.model.bucket))
  }

  /** `file.stem or file.name or "unknown"` */
  function IdStem(d: Doc): (r: string)
    ensures r != ""
    ensures Truthy(d.fileStem) ==> r == d.fileStem.value
    ensures !Truthy(d.fileStem) && Truthy(d.fileName) ==> r == d.fileName.value
  {
    if Truthy(d.fileStem) then d.fileStem.value
    else if Truthy(d.fileName) then d.fileName.value
    else "unknown"
  }

  /** `model.bucket or "unknown"` */
  function IdBucket(d: Doc): (r: string)
    ensures r != ""
    ensures Truthy(d.bucket) ==> r == d.bucket.value
  {
    if Truthy(d.bucket) then d.bucket.value else "unknown"
  }

  /** `_make_profile_id`: `bucket/stem`. */
  function MakeProfileId(d: Doc): (r: string)
    ensures r != ""
    ensures StartsWith(r, IdBucket(d) + "/") && EndsWith(r, IdStem(d))
    ensures |r| == |IdBucket(d)| + 1 + |IdStem(d)|
  {
    IdBucket(d) + "/" + IdStem(d)
  }

  /** The index of the first `sep` in `s`, or `|s|` when there is none. */
  function FirstIndexOf(s: string, sep: char): (r: nat)
    ensures r <= |s|
    decreases |s|
  {
    if s == [] || s[0] == sep then 0 else 1 + FirstIndexOf(s[1..], sep)
  }

  lemma {:induction false} FirstIndexOfJoin(a: string, b: string, sep: char)
    requires Lacks(a, sep)
    ensures FirstIndexOf(a + [sep] + b, sep) == |a|
    decreases |a|
  {
    if a != [] {
      assert (a + [sep] + b)[1..] == a[1..] + [sep] + b;
      FirstIndexOfJoin(a[1..], b, sep);
    }
  }

  /** Two strings joined at a separator the first lacks split back at the first separator. */
  lemma JoinAtFirstSeparator(a: string, b: string, c: string, d: string, sep: char)
    requires Lacks(a, sep) && Lacks(c, sep)
    requires a + [sep] + b == c + [sep] + d
    ensures a == c && b == d
  {
    var s := a + [sep] + b;
    FirstIndexOfJoin(a, b, sep);
    FirstIndexOfJoin(c, d, sep);
    assert a == s[..|a|] && c == s[..|c|];
    assert b == s[|a| + 1..] && d == s[|c| + 1..];
  }

  /** Ids determine their bucket and stem while buckets have no '/'. */
  lemma MakeProfileIdInjective(x: Doc, y: Doc)
    requires Lacks(IdBucket(x), '/') && Lacks(IdBucket(y), '/')
    requires MakeProfileId(x) == MakeProfileId(y)
    ensures IdBucket(x) == IdBucket(y) && IdStem(x) == IdStem(y)
  {
    assert MakeProfileId(x) == IdBucket(x) + ['/'] + IdStem(x);
    assert MakeProfileId(y) == IdBucket(y) + ['/'] + IdStem(y);
    JoinAtFirstSeparator(IdBucket(x), IdStem(x), IdBucket(y), IdStem(y), '/');
  }

  /** Built profiles get distinct ids unless they share both bucket and stem. */
  lemma BuiltProfileIdsDistinct(p: PB.Profile, q: PB.Profile, bp: PB.ProfileBucket, bq: PB.ProfileBucket)
    requires p.model.bucket == PB.BucketName(bp) && q.model.bucket == PB.BucketName(bq)
    requires MakeProfileId(DocOf(p)) == MakeProfileId(DocOf(q))
    ensures p.model.bucket == q.model.bucket && IdStem(DocOf(p)) == IdStem(DocOf(q))
  {
    PB.BucketNamesAreProfileBuckets(bp, bq);
    PB.BucketNamesAreProfileBuckets(bq, bp);
    MakeProfileIdInjective(DocOf(p), DocOf(q));
  }

  // ---------------------------------------------------------------
  // The rebuild, as functions of the parse outcomes
  // ---------------------------------------------------------------

  /** The document with a usable id: its own when truthy, otherwise a made one. */
  function WithId(d: Doc): (r: Doc)
    ensures Truthy(r.profileId)
    ensures Truthy(d.profileId) ==> r == d
    ensures !Truthy(d.profileId) ==> r == d.(profileId := Some(MakeProfileId(d)))
  {
    if Truthy(d.profileId) then d else d.(profileId := Some(MakeProfileId(d)))
  }

  /** The loaded profiles, in scan order; `None` is a file that could not be read or parsed. */
  function Loaded(results: seq<Option<Doc>>): (r: seq<Doc>)
    ensures |r| <= |results|
    ensures forall i | 0 <= i < |r| :: Truthy(r[i].profileId)
    decreases |results|
  {
    if results == [] then []
    else
      var init := Loaded(results[..|results| - 1]);
      match results[|results| - 1]
      case None => init
      case Some(d) => init + [WithId(d)]
  }

  function Errors(results: seq<Option<Doc>>): nat
    decreases |results|
  {
    if results == [] then 0
    else Errors(results[..|results| - 1]) + if results[|results| - 1].None? then 1 else 0
  }

  /** Every path is either loaded or counted as an error. */
  lemma {:induction false} LoadedPlusErrors(results: seq<Option<Doc>>)
    ensures |Loaded(results)| + Errors(results) == |results|
    decreases |results|
  {
    if results != [] {
      LoadedPlusErrors(results[..|results| - 1]);
    }
  }

  /** Scan order is kept: loading a concatenation of scans concatenates the loaded lists. */
  lemma {:induction false} LoadedConcat(a: seq<Option<Doc>>, b: seq<Option<Doc>>)
    ensures Loaded(a + b) == Loaded(a) + Loaded(b)
    decreases |b|
  {
    if b != [] {
      var b' := b[..|b| - 1];
      assert (a + b)[..|a + b| - 1] == a + b';
      LoadedConcat(a, b');
    } else {
      assert a + b == a;
    }
  }

  lemma LoadedSingle(x: Option<Doc>)
    ensures x.None? ==> Loaded([x]) == []
    ensures x.Some? ==> Loaded([x]) == [WithId(x.value)]
  {
    assert [x][..0] == [];
  }

  /** The cache after loading `docs` in order: each id maps to the last document with it. */
  function Cache(docs: seq<Doc>): map<string, Doc>
    decreases |docs|
  {
    if docs == [] then map[]
    else
      var d := docs[|docs| - 1];
      Cache(docs[..|docs| - 1])[OrEmpty(d.profileId) := d]
  }

  /** The position of the last document in `docs` with id `pid`. */
  function LastWithId(docs: seq<Doc>, pid: string): (r: Option<nat>)
    ensures r.Some? ==> r.value < |docs| && OrEmpty(docs[r.value].profileId) == pid
    ensures r.Some? ==> forall k | r.value < k < |docs| :: OrEmpty(docs[k].profileId) != pid
    ensures r.None? ==> forall k | 0 <= k < |docs| :: OrEmpty(docs[k].profileId) != pid
    decreases |docs|
  {
    if docs == [] then None
    else if OrEmpty(docs[|docs| - 1].profileId) == pid then Some(|docs| - 1)
    else
      var r := LastWithId(docs[..|docs| - 1], pid);
      assert forall k | 0 <= k < |docs| - 1 :: docs[..|docs| - 1][k] == docs[k];
      r
  }

  /** The cache holds an id exactly when some loaded document has it, and then the last such document. */
  lemma {:induction false} CacheHoldsLast(docs: seq<Doc>, pid: string)
    ensures pid in Cache(docs) <==> LastWithId(docs, pid).Some?
    ensures pid in Cache(docs) ==> Cache(docs)[pid] == docs[LastWithId(docs, pid).value]
    decreases |docs|
  {
    if docs != [] {
      var init := docs[..|docs| - 1];
      CacheHoldsLast(init, pid);
      if OrEmpty(docs[|docs| - 1].profileId) != pid {
        assert LastWithId(docs, pid) == LastWithId(init, pid);
        if LastWithId(init, pid).Some? {
          assert docs[LastWithId(init, pid).value] == init[LastWithId(init, pid).value];
        }
      }
    }
  }

  /** Every cached document is stored under its own id. */
  lemma CacheKeysAreIds(docs: seq<Doc>, pid: string)
    requires forall i | 0 <= i < |docs| :: Truthy(docs[i].profileId)
    requires pid in Cache(docs)
    ensures Cache(docs)[pid].profileId == Some(pid)
  {
    CacheHoldsLast(docs, pid);
  }

  // ---------------------------------------------------------------
  // The module-level cache and list
  // ---------------------------------------------------------------

  datatype LookupError = NoSuchProfile(profileId: string)

  /** `_PROFILE_CACHE` and `_PROFILE_LIST`. */
  class ProfileStore {
    var cache: map<string, Doc>
    var list: seq<Doc>

    ghost predicate Valid()
      reads this
    {
      && cache == Cache(list)
      && forall i | 0 <= i < |list| :: Truthy(list[i].profileId)
    }

    constructor()
      ensures Valid() && cache == map[] && list == []
    {
      cache := map[];
      list := [];
    }

    /** `reload_profiles` over the parse outcome of each scanned path, in scan order. */
    method Reload(results: seq<Option<Doc>>) returns (loaded: nat, errors: nat)
      modifies this
      ensures Valid()
      ensures list == Loaded(results) && cache == Cache(list)
      ensures loaded == |list| && errors == Errors(results)
      ensures loaded + errors == |results|
    {
      var newCache: map<string, Doc> := map[];
      var newList: seq<Doc> := [];
      errors := 0;
      for i := 0 to |results|
        invariant newList == Loaded(results[..i])
        invariant newCache == Cache(newList)
        invariant errors == Errors(results[..i])
      {
        assert results[..i + 1][..i] == results[..i];
        match results[i] {
          case None =>
            errors := errors + 1;
          case Some(profile) =>
            var pid := OrEmpty(profile.profileId);
            if !Truthy(profile.profileId) {
              pid := MakeProfileId(profile);
              profile := profile.(profileId := Some(pid));
            }
            newCache := newCache[pid := profile];
            newList := newList + [profile];
        }
      }
      assert results[..|results|] == results;
      cache := newCache;
      list := newList;
      loaded := |newList|;
      LoadedPlusErrors(results);
    }

    /** `get_profile`: the cached profile, or a `KeyError` for an unknown id. */
    function GetProfile(profileId: string): (r: Result<Doc, LookupError>)
      requires Valid()
      reads this
      ensures r.Ok? <==> LastWithId(list, profileId).Some?
      ensures r.Ok? ==> r.value == list[LastWithId(list, profileId).value] && r.value.profileId == Some(profileId)
      ensures r.Err? ==> r.error == NoSuchProfile(profileId)
    {
      CacheHoldsLast(list, profileId);
      if profileId !in cache then Err(NoSuchProfile(profileId))
      else
        CacheKeysAreIds(list, profileId);
        Ok(cache[profileId])
    }

    /** `ensure_loaded_once`: reload only while the cache is empty. */
    method EnsureLoadedOnce(results: seq<Option<Doc>>)
      requires Valid()
      modifies this
      ensures Valid()
      ensures old(cache) != map[] ==> cache == old(cache) && list == old(list)
      ensures old(cache) == map[] ==> list == Loaded(results) && cache == Cache(list)
    {
      if cache == map[] {
        var _, _ := Reload(results);
      }
    }
  }
}
