/** The avatar list endpoint. It collects the account's active custom
    avatars and the public avatars on a curated list, orders custom avatars
    first and the default avatar first within its group, and falls back to
    the default avatar when nothing was collected. Each of the two fetches
    is given as the body it yielded; a fetch that threw, answered with an
    error status or returned no JSON is `None`. */
module Avatars {
  import opened Wrappers
  import opened Json

  /** The curated public avatars; the first is the default. */
  const DefaultAvatarId: string := "dd73ea75-1218-4ef3-92ce-606d5f7fbc0a"
  const CuratedIds: seq<string> := [
    DefaultAvatarId,
    "1c690fe7-23e0-49f9-bfba-14344450285b",
    "513fd1b7-7ef9-466d-9af2-344e51eeb833",
    "fc9c1f9f-bc99-4fd9-a6b2-8b4b5669a046",
    "7b888024-f8c9-4205-95e1-78ce01497bda",
    "bd43ce31-7425-4379-8407-60f029548e61",
    "6e32f90a-f566-45be-9ec7-a5f6999ee606",
    "65f9e3c9-d48b-4118-b73a-4ae2e3cbb8f0",
    "55eec60c-d665-4972-a529-bbdcaf665ab8",
    "073b60a9-89a8-45aa-8902-c358f64d2852",
    "dc2935cf-5863-4f08-943b-c7478aea59fb"
  ]

  /** An entry of the answer; `None` fields are `undefined` and left out of
      the JSON. */
  datatype Avatar = Avatar(id: Option<Json>, name: Json, previewUrl: Option<Json>,
                           defaultVoice: Option<Json>, isCustom: bool)

  /** The entry added when nothing was collected. */
  const DefaultAvatar: Avatar := Avatar(Some(JStr(DefaultAvatarId)), JStr("Default Avatar"), None, None, false)

  /** `a || b` on property values. */
  function JsOr(a: Option<Json>, b: Option<Json>): Option<Json>
  {
    if Truthy(a) then a else b
  }

  /** `body.data?.results || []`, as far as `for … of` iterates it: only an
      array yields entries. Any other value either throws (objects, numbers,
      `true`), which the surrounding `catch` swallows, or yields characters
      whose properties are all `undefined` (strings); neither adds an entry. */
  function ResultsOf(body: Option<Json>): seq<Json>
  {
    if body.None? || body.value.JNull? then []
    else
      var r := GetOpt(Get(body.value, "data"), "results");
      if Truthy(r) && r.value.JArr? then r.value.items else []
  }

  /** The entries a loop reaches: reading a property of a `null` entry
      throws, which ends the loop and keeps what was pushed before. */
  function UntilNull(items: seq<Json>): seq<Json>
  {
    if items == [] || items[0].JNull? then [] else [items[0]] + UntilNull(items[1..])
  }

  /** The entries reached are the longest prefix without a null. */
  lemma {:induction false} UntilNullIsPrefix(items: seq<Json>, n: nat)
    requires n <= |items|
    requires forall k | 0 <= k < n :: !items[k].JNull?
    requires n == |items| || items[n].JNull?
    ensures UntilNull(items) == items[..n]
  {
    if n > 0 {
      UntilNullIsPrefix(items[1..], n - 1);
      assert items[..n] == [items[0]] + items[1..][..n - 1];
    }
  }

  // ----------------------------------------------------------------------
  // The two collecting loops

  predicate IsActive(item: Json) {
    Get(item, "status") == Some(JStr("ACTIVE")) || Get(item, "status") == Some(JStr("active"))
  }

  function CustomAvatar(item: Json): Avatar
  {
    Avatar(JsOr(Get(item, "id"), Get(item, "avatar_id")),
           JsOr(Get(item, "name"), Some(JStr("Custom Avatar"))).value,
           JsOr(Get(item, "preview_url"), Get(item, "thumbnail_url")),
           Get(item, "default_voice"),
           true)
  }

  /** The custom entries pushed for `items`, in order. */
  function CustomEntries(items: seq<Json>): seq<Avatar>
  {
    if items == [] then []
    else
      var last := items[|items| - 1];
      CustomEntries(items[..|items| - 1]) + (if IsActive(last) then [CustomAvatar(last)] else [])
  }

  /** `item.id || item.avatar_id`. */
  function PublicId(item: Json): Option<Json>
  {
    JsOr(Get(item, "id"), Get(item, "avatar_id"))
  }

  /** `PUBLIC_AVATAR_IDS.includes(id)`: only a curated string matches. */
  predicate IsCurated(id: Option<Json>) {
    id.Some? && id.value.JStr? && id.value.s in CuratedIds
  }

  function PublicAvatar(item: Json): Avatar
  {
    Avatar(PublicId(item),
           JsOr(Get(item, "name"), Some(JStr("Public Avatar"))).value,
           JsOr(Get(item, "preview_url"), Get(item, "thumbnail_url")),
           Get(item, "default_voice"),
           false)
  }

  /** The public entries pushed for `items`, in order. */
  function PublicEntries(items: seq<Json>): seq<Avatar>
  {
    if items == [] then []
    else
      var last := items[|items| - 1];
      PublicEntries(items[..|items| - 1]) + (if IsCurated(PublicId(last)) then [PublicAvatar(last)] else [])
  }

  // ----------------------------------------------------------------------
  // The order

  predicate IsDefault(a: Avatar) {
    a.id == Some(JStr(DefaultAvatarId))
  }

  /** The comparator passed to `sort`. */
  function Compare(a: Avatar, b: Avatar): int
  {
    if a.isCustom && !b.isCustom then -1
    else if !a.isCustom && b.isCustom then 1
    else if IsDefault(a) then -1
    else if IsDefault(b) then 1
    else 0
  }

  /** The position of an entry's group in the answer: custom before public,
      and within each the default id first. */
  function Rank(a: Avatar): (r: nat)
    ensures r < 4
  {
    (if a.isCustom then 0 else 2) + (if IsDefault(a) then 0 else 1)
  }

  /** The comparator orders two entries as their ranks do, unless both are
      in the same group and both carry the default id: then it answers -1
      both ways and is not a consistent comparator. */
  lemma CompareAgreesWithRank(a: Avatar, b: Avatar)
    ensures !(a.isCustom == b.isCustom && IsDefault(a) && IsDefault(b)) ==>
      (Compare(a, b) < 0 <==> Rank(a) < Rank(b)) && (Compare(a, b) > 0 <==> Rank(a) > Rank(b))
    ensures a.isCustom == b.isCustom && IsDefault(a) && IsDefault(b) ==>
      Compare(a, b) == -1 && Compare(b, a) == -1
  {
  }

  /** The entries of rank `r`, in order. */
  function WithRank(xs: seq<Avatar>, r: nat): seq<Avatar>
  {
    if xs == [] then []
    else WithRank(xs[..|xs| - 1], r) + (if Rank(xs[|xs| - 1]) == r then [xs[|xs| - 1]] else [])
  }

  /** The stable sort by rank: what `sort` yields with this comparator. */
  function SortByRank(xs: seq<Avatar>): seq<Avatar>
  {
    WithRank(xs, 0) + WithRank(xs, 1) + WithRank(xs, 2) + WithRank(xs, 3)
  }

  predicate RankOrdered(xs: seq<Avatar>) {
    forall i, j | 0 <= i < j < |xs| :: Rank(xs[i]) <= Rank(xs[j])
  }

  lemma {:induction false} WithRankHasRank(xs: seq<Avatar>, r: nat)
    ensures forall k | 0 <= k < |WithRank(xs, r)| :: Rank(WithRank(xs, r)[k]) == r
  {
    if xs != [] {
      WithRankHasRank(xs[..|xs| - 1], r);
    }
  }

  lemma {:induction false} WithRankIdentity(xs: seq<Avatar>, r: nat)
    requires forall k | 0 <= k < |xs| :: Rank(xs[k]) == r
    ensures WithRank(xs, r) == xs
  {
    if xs != [] {
      WithRankIdentity(xs[..|xs| - 1], r);
    }
  }

  lemma {:induction false} WithRankEmpty(xs: seq<Avatar>, r: nat)
    requires forall k | 0 <= k < |xs| :: Rank(xs[k]) != r
    ensures WithRank(xs, r) == []
  {
    if xs != [] {
      WithRankEmpty(xs[..|xs| - 1], r);
    }
  }

  lemma {:induction false} WithRankAppend(xs: seq<Avatar>, ys: seq<Avatar>, r: nat)
    ensures WithRank(xs + ys, r) == WithRank(xs, r) + WithRank(ys, r)
    decreases |ys|
  {
    if ys == [] {
      assert xs + ys == xs;
    } else {
      WithRankAppend(xs, ys[..|ys| - 1], r);
      assert (xs + ys)[..|xs + ys| - 1] == xs + ys[..|ys| - 1];
    }
  }

  lemma WithRankLast(xs: seq<Avatar>, r: nat)
    requires xs != []
    ensures multiset(WithRank(xs, r)) == multiset(WithRank(xs[..|xs| - 1], r))
      + (if Rank(xs[|xs| - 1]) == r then multiset{xs[|xs| - 1]} else multiset{})
  {
  }

  /** The four groups together hold every entry, as often as it occurs. */
  lemma {:induction false} WithRankPartition(xs: seq<Avatar>)
    ensures forall a :: multiset(xs)[a] == multiset(WithRank(xs, 0))[a] + multiset(WithRank(xs, 1))[a]
                                         + multiset(WithRank(xs, 2))[a] + multiset(WithRank(xs, 3))[a]
  {
    if xs != [] {
      var init, last := xs[..|xs| - 1], xs[|xs| - 1];
      WithRankPartition(init);
      assert xs == init + [last];
      WithRankLast(xs, 0);
      WithRankLast(xs, 1);
      WithRankLast(xs, 2);
      WithRankLast(xs, 3);
    }
  }

  /** The sort is a permutation: it keeps every entry, as often as it occurs. */
  lemma SortByRankPermutation(xs: seq<Avatar>)
    ensures multiset(SortByRank(xs)) == multiset(xs)
  {
    WithRankPartition(xs);
    var s := SortByRank(xs);
    assert s == WithRank(xs, 0) + WithRank(xs, 1) + WithRank(xs, 2) + WithRank(xs, 3);
    forall a ensures multiset(s)[a] == multiset(xs)[a] {
    }
  }

  /** The sort orders the entries by rank. */
  lemma SortByRankOrdered(xs: seq<Avatar>)
    ensures RankOrdered(SortByRank(xs))
  {
    var g0, g1, g2, g3 := WithRank(xs, 0), WithRank(xs, 1), WithRank(xs, 2), WithRank(xs, 3);
    WithRankHasRank(xs, 0);
    WithRankHasRank(xs, 1);
    WithRankHasRank(xs, 2);
    WithRankHasRank(xs, 3);
    var s := SortByRank(xs);
    forall i | 0 <= i < |s| ensures Rank(s[i]) == GroupOf(g0, g1, g2, g3, i) {
    }
  }

  /** The sort is stable: the entries of one rank keep their relative order. */
  lemma SortByRankStable(xs: seq<Avatar>, r: nat)
    ensures WithRank(SortByRank(xs), r) == WithRank(xs, r)
  {
    WithRankHasRank(xs, 0);
    WithRankHasRank(xs, 1);
    WithRankHasRank(xs, 2);
    WithRankHasRank(xs, 3);
    StableGroups(WithRank(xs, 0), WithRank(xs, 1), WithRank(xs, 2), WithRank(xs, 3), r);
    if r >= 4 {
      WithRankEmpty(xs, r);
    }
  }

  /** The rank of position `i` of four concatenated groups of ranks 0 to 3. */
  function GroupOf(g0: seq<Avatar>, g1: seq<Avatar>, g2: seq<Avatar>, g3: seq<Avatar>, i: nat): nat
  {
    if i < |g0| then 0
    else if i < |g0| + |g1| then 1
    else if i < |g0| + |g1| + |g2| then 2
    else 3
  }

  /** Selecting a rank from four concatenated lists selects it from each. */
  lemma WithRankAppend4(g0: seq<Avatar>, g1: seq<Avatar>, g2: seq<Avatar>, g3: seq<Avatar>, r: nat)
    ensures WithRank(g0 + g1 + g2 + g3, r) == WithRank(g0, r) + WithRank(g1, r) + WithRank(g2, r) + WithRank(g3, r)
  {
    WithRankAppend(g0 + g1 + g2, g3, r);
    WithRankAppend(g0 + g1, g2, r);
    WithRankAppend(g0, g1, r);
  }

  lemma StableGroups(g0: seq<Avatar>, g1: seq<Avatar>, g2: seq<Avatar>, g3: seq<Avatar>, r: nat)
    requires forall k | 0 <= k < |g0| :: Rank(g0[k]) == 0
    requires forall k | 0 <= k < |g1| :: Rank(g1[k]) == 1
    requires forall k | 0 <= k < |g2| :: Rank(g2[k]) == 2
    requires forall k | 0 <= k < |g3| :: Rank(g3[k]) == 3
    ensures WithRank(g0 + g1 + g2 + g3, r) == (if r == 0 then g0 else if r == 1 then g1 else if r == 2 then g2 else if r == 3 then g3 else [])
  {
    WithRankAppend4(g0, g1, g2, g3, r);
    if r == 0 {
      WithRankIdentity(g0, r);
      WithRankEmpty(g1, r);
      WithRankEmpty(g2, r);
      WithRankEmpty(g3, r);
      assert g0 + [] + [] + [] == g0;
    } else if r == 1 {
      WithRankEmpty(g0, r);
      WithRankIdentity(g1, r);
      WithRankEmpty(g2, r);
      WithRankEmpty(g3, r);
      assert [] + g1 + [] + [] == g1;
    } else if r == 2 {
      WithRankEmpty(g0, r);
      WithRankEmpty(g1, r);
      WithRankIdentity(g2, r);
      WithRankEmpty(g3, r);
      assert [] + [] + g2 + [] == g2;
    } else if r == 3 {
      WithRankEmpty(g0, r);
      WithRankEmpty(g1, r);
      WithRankEmpty(g2, r);
      WithRankIdentity(g3, r);
      assert [] + [] + [] + g3 == g3;
    } else {
      WithRankEmpty(g0, r);
      WithRankEmpty(g1, r);
      WithRankEmpty(g2, r);
      WithRankEmpty(g3, r);
    }
  }

  // ----------------------------------------------------------------------
  // The endpoint

  /** The entries collected by the two loops, before sorting. */
  function Collected(customBody: Option<Json>, publicBody: Option<Json>): seq<Avatar>
  {
    CustomEntries(UntilNull(ResultsOf(customBody))) + PublicEntries(UntilNull(ResultsOf(publicBody)))
  }

  /** The avatars `GET` answers with. */
  function AvatarList(customBody: Option<Json>, publicBody: Option<Json>): seq<Avatar>
  {
    var sorted := SortByRank(Collected(customBody, publicBody));
    if |sorted| == 0 then [DefaultAvatar] else sorted
  }

  /** The first loop: push every active custom avatar, until an entry is null. */
  method PushCustomAvatars(avatars: seq<Avatar>, items: seq<Json>) returns (result: seq<Avatar>)
    ensures result == avatars + CustomEntries(UntilNull(items))
  {
    result := avatars;
    var i := 0;
    while i < |items| && !items[i].JNull?
      invariant 0 <= i <= |items|
      invariant forall k | 0 <= k < i :: !items[k].JNull?
      invariant result == avatars + CustomEntries(items[..i])
    {
      if IsActive(items[i]) {
        result := result + [CustomAvatar(items[i])];
      }
      assert items[..i + 1][..i] == items[..i];
      assert items[..i] + [items[i]] == items[..i + 1];
      i := i + 1;
    }
    UntilNullIsPrefix(items, i);
  }

  /** The second loop: push every public avatar with a curated id, until an
      entry is null. */
  method PushPublicAvatars(avatars: seq<Avatar>, items: seq<Json>) returns (result: seq<Avatar>)
    ensures result == avatars + PublicEntries(UntilNull(items))
  {
    result := avatars;
    var i := 0;
    while i < |items| && !items[i].JNull?
      invariant 0 <= i <= |items|
      invariant forall k | 0 <= k < i :: !items[k].JNull?
      invariant result == avatars + PublicEntries(items[..i])
    {
      var avatarId := PublicId(items[i]);
      if IsCurated(avatarId) {
        result := result + [PublicAvatar(items[i])];
      }
      assert items[..i + 1][..i] == items[..i];
      assert items[..i] + [items[i]] == items[..i + 1];
      i := i + 1;
    }
    UntilNullIsPrefix(items, i);
  }

  /** `GET`: the two loops push onto the list, the list is sorted with the
      comparator, and the default avatar is pushed onto an empty list. */
  method ListAvatars(customBody: Option<Json>, publicBody: Option<Json>) returns (avatars: seq<Avatar>)
    ensures avatars == AvatarList(customBody, publicBody)
  {
    avatars := PushCustomAvatars([], ResultsOf(customBody));
    assert avatars == CustomEntries(UntilNull(ResultsOf(customBody))) by {
      assert [] + CustomEntries(UntilNull(ResultsOf(customBody))) == CustomEntries(UntilNull(ResultsOf(customBody)));
    }
    avatars := PushPublicAvatars(avatars, ResultsOf(publicBody));
    assert avatars == Collected(customBody, publicBody);
    avatars := SortByRank(avatars);
    if |avatars| == 0 {
      assert avatars + [DefaultAvatar] == [DefaultAvatar];
      avatars := avatars + [DefaultAvatar];
    }
  }

  // ----------------------------------------------------------------------
  // Properties

  /** Exactly the active custom avatars are collected, each marked custom. */
  lemma {:induction false} CustomEntriesSpec(items: seq<Json>)
    ensures forall a | a in CustomEntries(items) :: a.isCustom
    ensures forall a | a in CustomEntries(items) :: exists k | 0 <= k < |items| :: IsActive(items[k]) && a == CustomAvatar(items[k])
    ensures forall k | 0 <= k < |items| && IsActive(items[k]) :: CustomAvatar(items[k]) in CustomEntries(items)
  {
    if items != [] {
      var init := items[..|items| - 1];
      CustomEntriesSpec(init);
      forall k | 0 <= k < |init| ensures init[k] == items[k] {
      }
    }
  }

  /** Exactly the public avatars with a curated id are collected, each marked
      public and carrying that id. */
  lemma {:induction false} PublicEntriesSpec(items: seq<Json>)
    ensures forall a | a in PublicEntries(items) :: !a.isCustom && IsCurated(a.id)
    ensures forall a | a in PublicEntries(items) :: exists k | 0 <= k < |items| :: IsCurated(PublicId(items[k])) && a == PublicAvatar(items[k])
    ensures forall k | 0 <= k < |items| && IsCurated(PublicId(items[k])) :: PublicAvatar(items[k]) in PublicEntries(items)
  {
    if items != [] {
      var init := items[..|items| - 1];
      PublicEntriesSpec(init);
      forall k | 0 <= k < |init| ensures init[k] == items[k] {
      }
    }
  }

  /** The answer is never empty: it is the collected entries, each as
      often as collected, or the default avatar alone when nothing was
      collected. */
  lemma AvatarListSpec(customBody: Option<Json>, publicBody: Option<Json>)
    ensures |AvatarList(customBody, publicBody)| >= 1
    ensures Collected(customBody, publicBody) == [] ==> AvatarList(customBody, publicBody) == [DefaultAvatar]
    ensures Collected(customBody, publicBody) != [] ==>
      multiset(AvatarList(customBody, publicBody)) == multiset(Collected(customBody, publicBody))
  {
    var c := Collected(customBody, publicBody);
    SortByRankPermutation(c);
    if c != [] {
      assert c[0] in multiset(SortByRank(c));
    }
  }

  /** Every custom avatar comes before every public one, and within each
      group an entry with the default id comes before one without. */
  lemma CustomFirstThenDefault(customBody: Option<Json>, publicBody: Option<Json>)
    ensures var xs := AvatarList(customBody, publicBody);
      forall i, j | 0 <= i < j < |xs| ::
        && (xs[j].isCustom ==> xs[i].isCustom)
        && (xs[i].isCustom == xs[j].isCustom && IsDefault(xs[j]) ==> IsDefault(xs[i]))
  {
    var c := Collected(customBody, publicBody);
    SortByRankOrdered(c);
  }

  /** A failed fetch of one kind leaves the entries of the other kind as
      they would have been: the custom entries come from the custom fetch
      alone, and the public ones from the public fetch alone. */
  lemma FetchesAreIndependent(customBody: Option<Json>, publicBody: Option<Json>)
    ensures Collected(customBody, None) == CustomEntries(UntilNull(ResultsOf(customBody)))
    ensures Collected(None, publicBody) == PublicEntries(UntilNull(ResultsOf(publicBody)))
    ensures Collected(customBody, publicBody) == Collected(customBody, None) + Collected(None, publicBody)
  {
    assert CustomEntries(UntilNull(ResultsOf(customBody))) + [] == CustomEntries(UntilNull(ResultsOf(customBody)));
    assert [] + PublicEntries(UntilNull(ResultsOf(publicBody))) == PublicEntries(UntilNull(ResultsOf(publicBody)));
  }
}
