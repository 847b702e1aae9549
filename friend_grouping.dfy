/** The contact list's grouping by tag
    (`src/renderer/src/modules/contact/utils/friend-grouping.ts`): friends
    are bucketed by their normalised tag, each bucket sorted by title, and
    the buckets ordered by a preferred tag order, then by name with the
    untagged bucket last.  The locale comparison (`localeCompare` with
    `zh-CN`) is an input `cmp`. */
module FriendGrouping {
  import opened Wrappers
  import opened JsString
  import opened Sorting
  import opened Distinct

  const Ungrouped := "未分组"
  const UngroupedKey := "ungrouped"

  datatype FriendGroupItem = FriendGroupItem(id: string, title: string, groupTag: Option<string>)

  /** A group; `name` is the source's `label`. */
  datatype FriendGroup = FriendGroup(key: string, name: string, count: nat, items: seq<FriendGroupItem>)

  /** An entry of the `grouped` map: a tag name and its friends in list
      order. */
  datatype Bucket = Bucket(name: string, members: seq<FriendGroupItem>)

  /** `normalizeTagName`: the trimmed tag, or `未分组` for a missing or
      blank one. */
  function NormalizeTagName(tag: Option<string>): (r: string)
    ensures r != ""
  {
    var value := Trim(tag.GetOr(""));
    if value == "" then Ungrouped else value
  }

  /** A tag with a non-blank value normalises to its trimmed value, and a
      missing or blank one to `未分组`. */
  lemma NormalizeTagNameCases(tag: Option<string>)
    ensures tag.Some? && !AllSpace(tag.value) ==> NormalizeTagName(tag) == Trim(tag.value)
    ensures tag.None? || AllSpace(tag.value) ==> NormalizeTagName(tag) == Ungrouped
  {
    TrimEmptyIffBlank(tag.GetOr(""));
  }

  /** A normalised tag name normalises to itself. */
  lemma NormalizeTagNameIdempotent(tag: Option<string>)
    ensures NormalizeTagName(Some(NormalizeTagName(tag))) == NormalizeTagName(tag)
  {
    var r := NormalizeTagName(tag);
    if r == Ungrouped {
      assert !IsSpace(Ungrouped[0]);
      assert LeadingSpaces(Ungrouped) == 0;
      assert TrailingSpaces(Ungrouped) == 0;
    } else {
      TrimIdempotent(tag.value);
    }
    TrimEmptyIffBlank(r);
  }

  /** The group key: `ungrouped` for the untagged bucket, `tag:<name>`
      otherwise. */
  function GroupKey(name: string): (r: string)
    ensures r == UngroupedKey <==> name == Ungrouped
    ensures name != Ungrouped ==> r == "tag:" + name
  {
    if name == Ungrouped then UngroupedKey
    else
      assert ("tag:" + name)[0] != UngroupedKey[0];
      "tag:" + name
  }

  /** Different names get different keys. */
  lemma GroupKeyInjective(a: string, b: string)
    ensures GroupKey(a) == GroupKey(b) ==> a == b
  {
    if a != Ungrouped && b != Ungrouped && GroupKey(a) == GroupKey(b) {
      assert a == GroupKey(a)[4..];
      assert b == GroupKey(b)[4..];
    }
  }

  function TagOf(item: FriendGroupItem): string {
    NormalizeTagName(item.groupTag)
  }

  function NormalizedTags(preferred: seq<string>): (r: seq<string>)
    ensures |r| == |preferred| && forall i :: 0 <= i < |preferred| ==> r[i] == NormalizeTagName(Some(preferred[i]))
  {
    seq(|preferred|, i requires 0 <= i < |preferred| => NormalizeTagName(Some(preferred[i])))
  }

  /** Each value of `tags` with the first position where it occurs. */
  function FirstPositions(tags: seq<string>): (m: map<string, nat>)
    ensures forall t :: t in m <==> t in tags
    ensures forall t :: t in m ==> t in tags && m[t] == FirstIndex(tags, t)
  {
    if tags == [] then map[]
    else
      var init := tags[..|tags| - 1];
      var t := tags[|tags| - 1];
      var m := FirstPositions(init);
      FirstIndexOfPrefix(tags);
      if t in m then m else m[t := |tags| - 1]
  }

  /** `orderMap`: every normalised tag of the preferred order, with the
      first position where it occurs. */
  function TagOrder(preferred: seq<string>): map<string, nat> {
    FirstPositions(NormalizedTags(preferred))
  }

  /** The `forEach` that builds `orderMap`. */
  method BuildOrderMap(preferred: seq<string>) returns (orderMap: map<string, nat>)
    ensures orderMap == TagOrder(preferred)
  {
    orderMap := map[];
    var index := 0;
    while index < |preferred|
      invariant 0 <= index <= |preferred|
      invariant orderMap == FirstPositions(NormalizedTags(preferred)[..index])
    {
      var tags := NormalizedTags(preferred);
      assert tags[..index + 1][..index] == tags[..index];
      var normalizedTag := NormalizeTagName(Some(preferred[index]));
      if normalizedTag !in orderMap {
        orderMap := orderMap[normalizedTag := index];
      }
      index := index + 1;
    }
    assert NormalizedTags(preferred)[..index] == NormalizedTags(preferred);
  }

  function Tags(items: seq<FriendGroupItem>): (r: seq<string>)
    ensures |r| == |items| && forall i :: 0 <= i < |items| ==> r[i] == TagOf(items[i])
  {
    seq(|items|, i requires 0 <= i < |items| => TagOf(items[i]))
  }

  /** The friends whose tag is `name`, in list order. */
  function Members(items: seq<FriendGroupItem>, name: string): (r: seq<FriendGroupItem>)
  {
    if items == [] then []
    else Members(items[..|items| - 1], name) + (if TagOf(items[|items| - 1]) == name then [items[|items| - 1]] else [])
  }

  /** The members of `name` are the friends tagged `name`, each as often as
      in the list. */
  lemma {:induction false} MembersCount(items: seq<FriendGroupItem>, name: string, x: FriendGroupItem)
    ensures multiset(Members(items, name))[x] == if TagOf(x) == name then multiset(items)[x] else 0
  {
    if items != [] {
      var init := items[..|items| - 1];
      MembersCount(init, name, x);
      assert items == init + [items[|items| - 1]];
    }
  }

  /** The `grouped` map: one bucket per tag, in the order the tags first
      appear, holding that tag's friends in list order. */
  function Buckets(items: seq<FriendGroupItem>): (r: seq<Bucket>)
  {
    BucketsFor(items, Dedupe(Tags(items)))
  }

  function BucketsFor(items: seq<FriendGroupItem>, names: seq<string>): (r: seq<Bucket>)
    ensures |r| == |names| && forall i :: 0 <= i < |names| ==> r[i] == Bucket(names[i], Members(items, names[i]))
  {
    seq(|names|, i requires 0 <= i < |names| => Bucket(names[i], Members(items, names[i])))
  }

  /** The position of the bucket for `name`, if there is one. */
  function BucketIndex(grouped: seq<Bucket>, name: string): (r: Option<nat>)
    ensures r.Some? ==> r.value < |grouped| && grouped[r.value].name == name
    ensures r.None? ==> forall j :: 0 <= j < |grouped| ==> grouped[j].name != name
  {
    if grouped == [] then None
    else if grouped[0].name == name then Some(0)
    else
      var rest := BucketIndex(grouped[1..], name);
      if rest.Some? then Some(rest.value + 1) else None
  }

  /** One more friend: its bucket grows by it, or a new bucket is added at
      the end. */
  lemma BucketsNext(items: seq<FriendGroupItem>, i: nat)
    requires i < |items|
    ensures var b := Buckets(items[..i]);
            var t := TagOf(items[i]);
            var at := BucketIndex(b, t);
            Buckets(items[..i + 1])
              == if at.Some? then b[at.value := Bucket(t, b[at.value].members + [items[i]])]
                 else b + [Bucket(t, [items[i]])]
  {
    var s, x := items[..i], items[i];
    var s' := items[..i + 1];
    var t := TagOf(x);
    var names := Dedupe(Tags(s));
    NamesNext(items, i);
    MembersStep(items, i);
    var b := Buckets(s);
    var at := BucketIndex(b, t);
    if t in names {
      var j :| 0 <= j < |names| && names[j] == t;
      assert b[j].name == t;
      SameValueSameIndex(names, at.value, j);
      BucketsGrow(s, s', names, x, j);
    } else {
      MembersAbsent(s, t);
      BucketsAdd(s, s', names, x);
    }
  }

  /** One more friend adds its tag to the group names unless it is there. */
  lemma NamesNext(items: seq<FriendGroupItem>, i: nat)
    requires i < |items|
    ensures var names := Dedupe(Tags(items[..i]));
            Dedupe(Tags(items[..i + 1])) == if TagOf(items[i]) in names then names else names + [TagOf(items[i])]
  {
    var s' := items[..i + 1];
    assert Tags(s')[..|s'| - 1] == Tags(items[..i]);
  }

  /** One more friend joins the members of its tag only. */
  lemma MembersStep(items: seq<FriendGroupItem>, i: nat)
    requires i < |items|
    ensures forall l :: Members(items[..i + 1], l) == Members(items[..i], l) + (if TagOf(items[i]) == l then [items[i]] else [])
  {
    var s' := items[..i + 1];
    assert s'[..|s'| - 1] == items[..i] && s'[|s'| - 1] == items[i];
    forall l ensures Members(s', l) == Members(items[..i], l) + (if TagOf(items[i]) == l then [items[i]] else []) {
      MembersNext(s', l);
    }
  }

  lemma BucketsGrow(s: seq<FriendGroupItem>, s': seq<FriendGroupItem>, names: seq<string>,
                    x: FriendGroupItem, j: nat)
    requires NoDuplicates(names) && j < |names| && names[j] == TagOf(x)
    requires forall l :: Members(s', l) == Members(s, l) + (if TagOf(x) == l then [x] else [])
    ensures BucketsFor(s', names) == BucketsFor(s, names)[j := Bucket(TagOf(x), Members(s, TagOf(x)) + [x])]
  {
    var e := BucketsFor(s, names)[j := Bucket(TagOf(x), Members(s, TagOf(x)) + [x])];
    forall k | 0 <= k < |names| ensures BucketsFor(s', names)[k] == e[k] {
      if k != j {
        DistinctAt(names, k, j);
      }
    }
  }

  lemma BucketsAdd(s: seq<FriendGroupItem>, s': seq<FriendGroupItem>, names: seq<string>, x: FriendGroupItem)
    requires TagOf(x) !in names && Members(s, TagOf(x)) == []
    requires forall l :: Members(s', l) == Members(s, l) + (if TagOf(x) == l then [x] else [])
    ensures BucketsFor(s', names + [TagOf(x)]) == BucketsFor(s, names) + [Bucket(TagOf(x), [x])]
  {
    var e := BucketsFor(s, names) + [Bucket(TagOf(x), [x])];
    forall k | 0 <= k < |names| + 1 ensures BucketsFor(s', names + [TagOf(x)])[k] == e[k] {
      if k < |names| {
        assert names[k] != TagOf(x);
      }
    }
  }

  lemma MembersNext(items: seq<FriendGroupItem>, name: string)
    requires items != []
    ensures Members(items, name)
            == Members(items[..|items| - 1], name) + (if TagOf(items[|items| - 1]) == name then [items[|items| - 1]] else [])
  {
  }

  /** A tag no friend carries has no members. */
  lemma MembersAbsent(items: seq<FriendGroupItem>, name: string)
    requires name !in Tags(items)
    ensures Members(items, name) == []
  {
    var r := Members(items, name);
    if r != [] {
      MembersCount(items, name, r[0]);
    }
  }

  /** The `for … of` that fills `grouped`. */
  method GroupByTag(items: seq<FriendGroupItem>) returns (grouped: seq<Bucket>)
    ensures grouped == Buckets(items)
  {
    grouped := [];
    var i := 0;
    while i < |items|
      invariant 0 <= i <= |items|
      invariant grouped == Buckets(items[..i])
    {
      var tagName := TagOf(items[i]);
      var at := BucketIndex(grouped, tagName);
      BucketsNext(items, i);
      if at.Some? {
        grouped := grouped[at.value := Bucket(tagName, grouped[at.value].members + [items[i]])];
      } else {
        grouped := grouped + [Bucket(tagName, [items[i]])];
      }
      i := i + 1;
    }
    assert items[..i] == items;
  }

  /** Whether `cmp` orders strings the way a collation does: every two
      strings compare one way or the other, and the order is transitive. */
  ghost predicate Collation(cmp: (string, string) -> int) {
    && (forall x, y :: cmp(x, y) <= 0 || cmp(y, x) <= 0)
    && (forall x, y, z :: cmp(x, y) <= 0 && cmp(y, z) <= 0 ==> cmp(x, z) <= 0)
  }

  /** `compareByTitle` as the order `sort` keeps. */
  function TitleOrder(cmp: (string, string) -> int): (FriendGroupItem, FriendGroupItem) -> bool {
    (a: FriendGroupItem, b: FriendGroupItem) => cmp(a.title, b.title) <= 0
  }

  /** The position of a name in the preferred order, none when unlisted
      (`Number.MAX_SAFE_INTEGER` in the source). */
  function Rank(orderMap: map<string, nat>, name: string): Option<nat> {
    if name in orderMap then Some(orderMap[name]) else None
  }

  /** Rank `a` comes strictly before rank `b`: listed before unlisted, and
      lower positions first. */
  predicate RankBefore(a: Option<nat>, b: Option<nat>) {
    a.Some? && (b.None? || a.value < b.value)
  }

  /** The group comparator of `buildFriendGroups` as the order `sort` keeps:
      `a` may stay in front of `b` when the comparator is not positive. */
  predicate GroupBefore(orderMap: map<string, nat>, cmp: (string, string) -> int, a: FriendGroup, b: FriendGroup) {
    var aOrder, bOrder := Rank(orderMap, a.name), Rank(orderMap, b.name);
    if aOrder != bOrder then RankBefore(aOrder, bOrder)
    else if a.name == Ungrouped then false
    else if b.name == Ungrouped then true
    else cmp(a.name, b.name) <= 0
  }

  function GroupOrder(orderMap: map<string, nat>, cmp: (string, string) -> int): (FriendGroup, FriendGroup) -> bool {
    (a: FriendGroup, b: FriendGroup) => GroupBefore(orderMap, cmp, a, b)
  }

  /** One group of the result: its key, name, count and title-sorted
      friends. */
  function ToGroup(b: Bucket, cmp: (string, string) -> int): (g: FriendGroup)
  {
    FriendGroup(GroupKey(b.name), b.name, |b.members|, SortBy(b.members, TitleOrder(cmp)))
  }

  function ToGroups(buckets: seq<Bucket>, cmp: (string, string) -> int): (r: seq<FriendGroup>)
    ensures |r| == |buckets| && forall i :: 0 <= i < |buckets| ==> r[i] == ToGroup(buckets[i], cmp)
  {
    seq(|buckets|, i requires 0 <= i < |buckets| => ToGroup(buckets[i], cmp))
  }

  /** The result of `buildFriendGroups`. */
  function FriendGroups(items: seq<FriendGroupItem>, preferred: seq<string>, cmp: (string, string) -> int)
    : (r: seq<FriendGroup>)
    ensures |r| == |Dedupe(Tags(items))|
    ensures r == [] <==> items == []
  {
    var names := Dedupe(Tags(items));
    assert items != [] ==> Tags(items)[0] in names;
    assert |Buckets(items)| == |names|;
    if items == [] then []
    else SortBy(ToGroups(Buckets(items), cmp), GroupOrder(TagOrder(preferred), cmp))
  }

  /** `buildFriendGroups`. */
  method BuildFriendGroups(items: seq<FriendGroupItem>, preferredTagOrder: seq<string>, cmp: (string, string) -> int)
    returns (groups: seq<FriendGroup>)
    ensures groups == FriendGroups(items, preferredTagOrder, cmp)
    ensures items == [] ==> groups == []
  {
    if |items| == 0 {
      return [];
    }
    var orderMap := BuildOrderMap(preferredTagOrder);
    var grouped := GroupByTag(items);
    groups := SortBy(ToGroups(grouped, cmp), GroupOrder(orderMap, cmp));
  }

  function Names(groups: seq<FriendGroup>): (r: seq<string>)
    ensures |r| == |groups| && forall i :: 0 <= i < |groups| ==> r[i] == groups[i].name
  {
    seq(|groups|, i requires 0 <= i < |groups| => groups[i].name)
  }

  /** Reordering groups whose names are all different keeps the names all
      different. */
  lemma NamesStayDistinct(s: seq<FriendGroup>, r: seq<FriendGroup>)
    requires NoDuplicates(Names(s)) && multiset(r) == multiset(s)
    ensures NoDuplicates(Names(r))
  {
    assert NoDuplicates(s) by {
      forall i, j | 0 <= i < j < |s| ensures s[i] != s[j] {
        assert Names(s)[i] != Names(s)[j];
      }
    }
    forall i, j | 0 <= i < j < |r| ensures Names(r)[i] != Names(r)[j] {
      assert r[i] in multiset(s) && r[j] in multiset(s);
      var a :| 0 <= a < |s| && s[a] == r[i];
      var b :| 0 <= b < |s| && s[b] == r[j];
      RepeatCountsTwo(r, i, j);
      DistinctCountsOne(s, r[i]);
      if a != b {
        DistinctAt(Names(s), a, b);
      }
    }
  }

  /** The unsorted groups: one per tag, named after the tag. */
  lemma UnsortedGroups(items: seq<FriendGroupItem>, cmp: (string, string) -> int)
    ensures Names(ToGroups(Buckets(items), cmp)) == Dedupe(Tags(items))
  {
  }

  /** A group built from a bucket: keyed by its name and holding exactly
      the friends with that tag, its count being their number. */
  lemma BucketGroup(items: seq<FriendGroupItem>, cmp: (string, string) -> int, g: FriendGroup)
    requires g in ToGroups(Buckets(items), cmp)
    ensures g.key == GroupKey(g.name) && g.count == |g.items|
    ensures forall x :: multiset(g.items)[x] == if TagOf(x) == g.name then multiset(items)[x] else 0
  {
    var s := ToGroups(Buckets(items), cmp);
    var k :| 0 <= k < |s| && s[k] == g;
    var members := Members(items, g.name);
    assert g.items == SortBy(members, TitleOrder(cmp));
    forall x ensures multiset(g.items)[x] == if TagOf(x) == g.name then multiset(items)[x] else 0 {
      MembersCount(items, g.name, x);
    }
  }

  /** The groups, sorted or not, have the same names. */
  lemma SortedNames(s: seq<FriendGroup>, le: (FriendGroup, FriendGroup) -> bool)
    ensures forall t :: t in Names(SortBy(s, le)) <==> t in Names(s)
  {
    var r := SortBy(s, le);
    forall t ensures t in Names(r) <==> t in Names(s) {
      if t in Names(r) {
        var i :| 0 <= i < |r| && r[i].name == t;
        SortByPermutes(s, le, r[i]);
      }
      if t in Names(s) {
        var i :| 0 <= i < |s| && s[i].name == t;
        SortByPermutes(s, le, s[i]);
      }
    }
  }

  /** `buildFriendGroups` partitions the friends by tag: one group per tag
      that occurs, no two groups with the same name, each group keyed by
      its name and holding exactly the friends with that tag (each as often
      as in the list), its count being their number. */
  lemma FriendGroupsPartition(items: seq<FriendGroupItem>, preferred: seq<string>, cmp: (string, string) -> int)
    ensures var groups := FriendGroups(items, preferred, cmp);
            && NoDuplicates(Names(groups))
            && (forall t :: t in Names(groups) <==> t in Tags(items))
            && forall g :: g in groups ==>
                 && g.key == GroupKey(g.name)
                 && g.count == |g.items|
                 && forall x :: multiset(g.items)[x] == if TagOf(x) == g.name then multiset(items)[x] else 0
  {
    if items != [] {
      var s := ToGroups(Buckets(items), cmp);
      var le := GroupOrder(TagOrder(preferred), cmp);
      var groups := SortBy(s, le);
      assert groups == FriendGroups(items, preferred, cmp);
      UnsortedGroups(items, cmp);
      NamesStayDistinct(s, groups);
      SortedNames(s, le);
      forall g | g in groups
        ensures g.key == GroupKey(g.name) && g.count == |g.items|
        ensures forall x :: multiset(g.items)[x] == if TagOf(x) == g.name then multiset(items)[x] else 0
      {
        SortByPermutes(s, le, g);
        BucketGroup(items, cmp, g);
      }
    }
  }

  /** Every friend is in the group of its tag. */
  lemma FriendInItsGroup(items: seq<FriendGroupItem>, preferred: seq<string>, cmp: (string, string) -> int,
                         x: FriendGroupItem)
    requires x in items
    ensures var groups := FriendGroups(items, preferred, cmp);
            exists g :: g in groups && g.name == TagOf(x) && x in g.items
  {
    var groups := FriendGroups(items, preferred, cmp);
    FriendGroupsPartition(items, preferred, cmp);
    var i :| 0 <= i < |items| && items[i] == x;
    assert Tags(items)[i] == TagOf(x);
    var names := Names(groups);
    assert TagOf(x) in names;
    var k :| 0 <= k < |names| && names[k] == TagOf(x);
    var g := groups[k];
    assert g in groups && g.name == TagOf(x);
    assert x in multiset(items);
    assert multiset(g.items)[x] == multiset(items)[x];
  }

  /** Under a collation, comparing titles is a total preorder on friends. */
  lemma TitleOrderIsPreorder(cmp: (string, string) -> int)
    requires Collation(cmp)
    ensures Total(TitleOrder(cmp)) && Transitive(TitleOrder(cmp))
  {
    var le := TitleOrder(cmp);
    forall a, b ensures le(a, b) || le(b, a) {
      assert cmp(a.title, b.title) <= 0 || cmp(b.title, a.title) <= 0;
    }
    forall a, b, c | le(a, b) && le(b, c) ensures le(a, c) {
      assert cmp(a.title, b.title) <= 0 && cmp(b.title, c.title) <= 0;
    }
  }

  /** The friends of every group are ordered by title. */
  lemma FriendGroupsItemsSorted(items: seq<FriendGroupItem>, preferred: seq<string>, cmp: (string, string) -> int)
    requires Collation(cmp)
    ensures forall g :: g in FriendGroups(items, preferred, cmp) ==> SortedBy(g.items, TitleOrder(cmp))
  {
    if items != [] {
      var s := ToGroups(Buckets(items), cmp);
      var order := GroupOrder(TagOrder(preferred), cmp);
      var groups := SortBy(s, order);
      assert groups == FriendGroups(items, preferred, cmp);
      TitleOrderIsPreorder(cmp);
      forall g | g in groups ensures SortedBy(g.items, TitleOrder(cmp)) {
        SortByPermutes(s, order, g);
        var k :| 0 <= k < |s| && s[k] == g;
        SortBySorted(Buckets(items)[k].members, TitleOrder(cmp));
      }
    }
  }

  /** The group comparator made total: it differs from `GroupOrder` only on
      two groups both named `未分组`, which the source never compares. */
  function GroupPreorder(orderMap: map<string, nat>, cmp: (string, string) -> int): (FriendGroup, FriendGroup) -> bool {
    (a: FriendGroup, b: FriendGroup) =>
      var aOrder, bOrder := Rank(orderMap, a.name), Rank(orderMap, b.name);
      if aOrder != bOrder then RankBefore(aOrder, bOrder)
      else if a.name == Ungrouped then b.name == Ungrouped
      else if b.name == Ungrouped then true
      else cmp(a.name, b.name) <= 0
  }

  /** Under a collation the total comparator is a total preorder. */
  lemma GroupPreorderIsPreorder(orderMap: map<string, nat>, cmp: (string, string) -> int)
    requires Collation(cmp)
    ensures Total(GroupPreorder(orderMap, cmp)) && Transitive(GroupPreorder(orderMap, cmp))
  {
    var le := GroupPreorder(orderMap, cmp);
    forall a, b ensures le(a, b) || le(b, a) {
      assert cmp(a.name, b.name) <= 0 || cmp(b.name, a.name) <= 0;
    }
    forall a, b, c | le(a, b) && le(b, c) ensures le(a, c) {
      var ra, rb, rc := Rank(orderMap, a.name), Rank(orderMap, b.name), Rank(orderMap, c.name);
      if ra == rb && rb == rc && a.name != Ungrouped && b.name != Ungrouped && c.name != Ungrouped {
        assert cmp(a.name, b.name) <= 0 && cmp(b.name, c.name) <= 0;
      }
    }
  }

  /** The two comparators agree on groups with different names. */
  lemma GroupOrdersAgree(orderMap: map<string, nat>, cmp: (string, string) -> int, a: FriendGroup, b: FriendGroup)
    ensures a.name != b.name ==> GroupOrder(orderMap, cmp)(a, b) == GroupPreorder(orderMap, cmp)(a, b)
  {
  }

  /** `buildFriendGroups` orders the groups by its comparator: every group
      may stay in front of every later one. */
  lemma FriendGroupsOrdered(items: seq<FriendGroupItem>, preferred: seq<string>, cmp: (string, string) -> int)
    requires Collation(cmp)
    ensures var groups := FriendGroups(items, preferred, cmp);
            forall i, j :: 0 <= i < j < |groups| ==> GroupOrder(TagOrder(preferred), cmp)(groups[i], groups[j])
  {
    if items != [] {
      var orderMap := TagOrder(preferred);
      var s := ToGroups(Buckets(items), cmp);
      var order, preorder := GroupOrder(orderMap, cmp), GroupPreorder(orderMap, cmp);
      var groups := SortBy(s, order);
      assert groups == FriendGroups(items, preferred, cmp);
      UnsortedGroups(items, cmp);
      forall a, b | a in s && b in s && a != b ensures order(a, b) == preorder(a, b) {
        var p :| 0 <= p < |s| && s[p] == a;
        var q :| 0 <= q < |s| && s[q] == b;
        if p != q {
          DistinctAt(Names(s), p, q);
        }
        GroupOrdersAgree(orderMap, cmp, a, b);
      }
      forall i, j | 0 <= i < j < |s| ensures s[i] != s[j] {
        DistinctAt(Names(s), i, j);
      }
      SortByAgree(s, order, preorder);
      GroupPreorderIsPreorder(orderMap, cmp);
      SortBySorted(s, preorder);
      NamesStayDistinct(s, groups);
      forall i, j | 0 <= i < j < |groups| ensures order(groups[i], groups[j]) {
        DistinctAt(Names(groups), i, j);
        GroupOrdersAgree(orderMap, cmp, groups[i], groups[j]);
      }
    }
  }

  /** Different tags have different first positions in the preferred
      order. */
  lemma TagOrderInjective(preferred: seq<string>, a: string, b: string)
    ensures var orderMap := TagOrder(preferred);
            a in orderMap && b in orderMap && orderMap[a] == orderMap[b] ==> a == b
  {
  }

  /** Groups with different names ordered by the comparator over a map
      that gives different names different positions: listed names come
      first, by position, and `未分组`, when unlisted, last. */
  lemma OrderedGroups(groups: seq<FriendGroup>, orderMap: map<string, nat>, cmp: (string, string) -> int)
    requires NoDuplicates(Names(groups))
    requires forall a, b :: a in orderMap && b in orderMap && orderMap[a] == orderMap[b] ==> a == b
    requires forall i, j :: 0 <= i < j < |groups| ==> GroupOrder(orderMap, cmp)(groups[i], groups[j])
    ensures forall i, j :: 0 <= i < j < |groups| && groups[j].name in orderMap ==>
              groups[i].name in orderMap && orderMap[groups[i].name] < orderMap[groups[j].name]
    ensures Ungrouped !in orderMap ==>
              forall k :: 0 <= k < |groups| && groups[k].name == Ungrouped ==> k == |groups| - 1
  {
    forall i, j | 0 <= i < j < |groups| && groups[j].name in orderMap
      ensures groups[i].name in orderMap && orderMap[groups[i].name] < orderMap[groups[j].name]
    {
      DistinctAt(Names(groups), i, j);
      assert GroupBefore(orderMap, cmp, groups[i], groups[j]);
    }
    forall k | 0 <= k < |groups| - 1 && Ungrouped !in orderMap ensures groups[k].name != Ungrouped {
      assert GroupBefore(orderMap, cmp, groups[k], groups[k + 1]);
    }
  }

  /** Tags of the preferred order come first, in that order; the tags it
      does not list come after all of them.  When `未分组` is not listed,
      its group is the last one. */
  lemma PreferredTagsFirst(items: seq<FriendGroupItem>, preferred: seq<string>, cmp: (string, string) -> int)
    requires Collation(cmp)
    ensures var groups, orderMap := FriendGroups(items, preferred, cmp), TagOrder(preferred);
            && (forall i, j :: 0 <= i < j < |groups| && groups[j].name in orderMap ==>
                  groups[i].name in orderMap && orderMap[groups[i].name] < orderMap[groups[j].name])
            && (Ungrouped !in orderMap ==>
                  forall k :: 0 <= k < |groups| && groups[k].name == Ungrouped ==> k == |groups| - 1)
  {
    var groups, orderMap := FriendGroups(items, preferred, cmp), TagOrder(preferred);
    FriendGroupsOrdered(items, preferred, cmp);
    FriendGroupsPartition(items, preferred, cmp);
    forall a, b | a in orderMap && b in orderMap && orderMap[a] == orderMap[b] ensures a == b {
      TagOrderInjective(preferred, a, b);
    }
    OrderedGroups(groups, orderMap, cmp);
  }
}
