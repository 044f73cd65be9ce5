/** The blog-post collection as a value: the seed, and the pure pieces the
    handlers are built from (the id match, the first-index search, the
    shallow merge and the filter), with the laws that hold of them. */
module Posts {
  import opened Json

  /** A post is a plain object: whatever keys the client sent. */
  type Post = map<string, Value>

  /** `post.id === Number(id)`: the post has an "id" that is the number the
      parameter parsed to. A parameter that is not an integer (None) matches
      no post, and neither does a post without a numeric "id". */
  predicate Matches(p: Post, key: Option<int>)
    ensures key.None? ==> !Matches(p, key)
    ensures ("id" !in p || !p["id"].Num?) ==> !Matches(p, key)
    ensures Matches(p, key) ==> p["id"] == Num(key.value)
  {
    key.Some? && "id" in p && p["id"] == Num(key.value)
  }

  function SeedPost(id: int, title: string, content: string): Post {
    map["id" := Num(id), "title" := Str(title), "content" := Str(content), "comments" := Arr([])]
  }

  /** The collection the process starts with. */
  function Seed(): (s: seq<Post>)
    ensures |s| == 3
    ensures forall i :: 0 <= i < 3 ==> Matches(s[i], Some(i + 1))
    ensures forall i :: 0 <= i < 3 ==> "comments" in s[i] && s[i]["comments"] == Arr([])
  {
    [ SeedPost(1, "First Post", "First Post Content"),
      SeedPost(2, "Second Post", "Second Post Content"),
      SeedPost(3, "Third Post", "Third Post Content") ]
  }

  /** Only the ids 1, 2 and 3 occur in the seed. */
  lemma SeedHasOnlyIdsOneToThree(k: int)
    requires k < 1 || 3 < k
    ensures FindIndex(Seed(), Some(k)).None?
  {
    var s := Seed();
    forall j | 0 <= j < |s| ensures !Matches(s[j], Some(k)) {
      assert Matches(s[j], Some(j + 1));
    }
  }

  /** `findIndex`: the first position whose post matches key, None for -1. */
  function FindIndex(s: seq<Post>, key: Option<int>): (r: Option<nat>)
    ensures r.Some? ==> r.value < |s| && Matches(s[r.value], key)
    ensures r.Some? ==> forall j :: 0 <= j < r.value ==> !Matches(s[j], key)
    ensures r.None? <==> forall j :: 0 <= j < |s| ==> !Matches(s[j], key)
  {
    if s == [] then None
    else if Matches(s[0], key) then Some(0)
    else match FindIndex(s[1..], key)
      case None => None
      case Some(i) => Some(i + 1)
  }

  /** `{ ...base, ...patch }`: a right-biased shallow merge. */
  function Merge(base: Post, patch: Post): (r: Post)
    ensures r.Keys == base.Keys + patch.Keys
    ensures forall k :: k in patch ==> r[k] == patch[k]
    ensures forall k :: k in base && k !in patch ==> r[k] == base[k]
  {
    base + patch
  }

  /** `filter(post => post.id !== Number(id))`: every post that does not
      match key, in the original order. */
  function Without(s: seq<Post>, key: Option<int>): (r: seq<Post>)
    ensures |r| <= |s|
    ensures forall p :: p in r <==> p in s && !Matches(p, key)
  {
    if s == [] then []
    else (if Matches(s[0], key) then [] else [s[0]]) + Without(s[1..], key)
  }

  /** How many posts in s match key. */
  function Occurrences(s: seq<Post>, key: Option<int>): nat {
    if s == [] then 0
    else (if Matches(s[0], key) then 1 else 0) + Occurrences(s[1..], key)
  }

  /** The collection after replacing the post at i by its merge with patch. */
  function ReplaceMerged(s: seq<Post>, i: nat, patch: Post): (r: seq<Post>)
    requires i < |s|
    ensures |r| == |s|
    ensures r[i] == Merge(s[i], patch)
    ensures forall j :: 0 <= j < |s| && j != i ==> r[j] == s[j]
  {
    s[i := Merge(s[i], patch)]
  }

  /** Filtering distributes over concatenation, so the posts that survive
      keep their relative order. */
  lemma {:induction false} WithoutAppend(a: seq<Post>, b: seq<Post>, key: Option<int>)
    ensures Without(a + b, key) == Without(a, key) + Without(b, key)
  {
    if a == [] {
      assert a + b == b;
    } else {
      assert (a + b)[0] == a[0];
      assert (a + b)[1..] == a[1..] + b;
      WithoutAppend(a[1..], b, key);
    }
  }

  /** Filtering removes exactly the matching posts. */
  lemma {:induction false} WithoutLength(s: seq<Post>, key: Option<int>)
    ensures |Without(s, key)| == |s| - Occurrences(s, key)
  {
    if s != [] {
      WithoutLength(s[1..], key);
    }
  }

  /** When no post matches, deleting leaves the collection exactly as it was. */
  lemma {:induction false} WithoutNoMatch(s: seq<Post>, key: Option<int>)
    requires FindIndex(s, key).None?
    ensures Without(s, key) == s
  {
    if s != [] {
      assert !Matches(s[0], key);
      assert FindIndex(s[1..], key).None? by {
        forall j | 0 <= j < |s[1..]| ensures !Matches(s[1..][j], key) {
          assert s[1..][j] == s[j + 1];
        }
      }
      WithoutNoMatch(s[1..], key);
      assert s == [s[0]] + s[1..];
    }
  }

  /** A post appended under an id nothing else carries is the one a lookup
      by that id finds. */
  lemma FindIndexAppended(s: seq<Post>, p: Post, key: Option<int>)
    requires FindIndex(s, key).None? && Matches(p, key)
    ensures FindIndex(s + [p], key) == Some(|s|)
  {
    var t := s + [p];
    forall j | 0 <= j < |s| ensures !Matches(t[j], key) {
      assert t[j] == s[j];
    }
    assert Matches(t[|s|], key);
    var r := FindIndex(t, key);
    assert r.Some? && r.value <= |s|;
  }

  /** Deleting the id of a post that was appended under a fresh id gives
      back the collection from before the append. */
  lemma WithoutAppended(s: seq<Post>, p: Post, key: Option<int>)
    requires FindIndex(s, key).None? && Matches(p, key)
    ensures Without(s + [p], key) == s
  {
    WithoutAppend(s, [p], key);
    WithoutNoMatch(s, key);
    assert Without([p][1..], key) == [];
  }

  /** Deleting twice leaves the same collection as deleting once. */
  lemma WithoutIdempotent(s: seq<Post>, key: Option<int>)
    ensures Without(Without(s, key), key) == Without(s, key)
  {
    var r := Without(s, key);
    assert FindIndex(r, key).None? by {
      forall j | 0 <= j < |r| ensures !Matches(r[j], key) {
        assert r[j] in r;
      }
    }
    WithoutNoMatch(r, key);
  }

  /** No post in the result of a delete matches the deleted id, so an update
      by that id afterwards finds nothing. */
  lemma WithoutLeavesNoMatch(s: seq<Post>, key: Option<int>)
    ensures FindIndex(Without(s, key), key).None?
  {
    var r := Without(s, key);
    forall j | 0 <= j < |r| ensures !Matches(r[j], key) {
      assert r[j] in r;
    }
  }

  /** Update and delete disagree on duplicates: with two posts sharing the
      id, update changes only the first while delete removes both. */
  lemma {:induction false} UpdateDeleteAsymmetry(s: seq<Post>, key: Option<int>, i: nat, j: nat, patch: Post)
    requires i < j < |s| && Matches(s[i], key) && Matches(s[j], key)
    ensures FindIndex(s, key).Some? && FindIndex(s, key).value != j
    ensures ReplaceMerged(s, FindIndex(s, key).value, patch)[j] == s[j]
    ensures |Without(s, key)| <= |s| - 2
  {
    assert Occurrences(s, key) >= 2 by {
      OccurrencesAtLeastTwo(s, key, i, j);
    }
    WithoutLength(s, key);
  }

  lemma {:induction false} OccurrencesAtLeastTwo(s: seq<Post>, key: Option<int>, i: nat, j: nat)
    requires i < j < |s| && Matches(s[i], key) && Matches(s[j], key)
    ensures Occurrences(s, key) >= 2
  {
    if i == 0 {
      OccurrencesAtLeastOne(s[1..], key, j - 1);
    } else {
      OccurrencesAtLeastTwo(s[1..], key, i - 1, j - 1);
    }
  }

  lemma {:induction false} OccurrencesAtLeastOne(s: seq<Post>, key: Option<int>, j: nat)
    requires j < |s| && Matches(s[j], key)
    ensures Occurrences(s, key) >= 1
  {
    if j > 0 {
      OccurrencesAtLeastOne(s[1..], key, j - 1);
    }
  }

  /** Two successive merges equal one merge with the merged patches. */
  lemma MergeAssociative(base: Post, a: Post, b: Post)
    ensures Merge(Merge(base, a), b) == Merge(base, Merge(a, b))
  {
  }

  /** Re-sending the same patch changes nothing more. */
  lemma MergeIdempotent(base: Post, patch: Post)
    ensures Merge(Merge(base, patch), patch) == Merge(base, patch)
  {
  }

  /** A patch that does not touch "id" keeps the post at the same place for
      the next lookup by that id. */
  lemma UpdateKeepsPosition(s: seq<Post>, key: Option<int>, patch: Post)
    requires FindIndex(s, key).Some?
    requires "id" !in patch
    ensures FindIndex(ReplaceMerged(s, FindIndex(s, key).value, patch), key) == FindIndex(s, key)
  {
  }
}
