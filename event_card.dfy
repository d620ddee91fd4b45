/** The category tags of an event card: `(ev.categoryIds || []).map((id) =>
    categoryMap.get(id)).filter(Boolean)`. */
module EventCard {
  import opened Values
  import opened Records
  import opened Seqs
  import DataContext

  /** `categoryMap.get(id)`, kept when it is truthy. */
  function Tag(m: map<Key, string>, id: Key): (r: seq<string>)
    ensures |r| <= 1
  {
    if id in m && m[id] != "" then [m[id]] else []
  }

  /** The names the lookup gives for `ids`, skipping ids it lacks and
      names that are empty. */
  function NamesOf(ids: seq<Key>, m: map<Key, string>): (r: seq<string>)
    ensures |r| <= |ids|
  {
    FlatMapAtMostOne(ids, (id: Key) => Tag(m, id));
    FlatMap(ids, (id: Key) => Tag(m, id))
  }

  /** `names` */
  function Names(ev: Event, m: map<Key, string>): (r: seq<string>)
    ensures |r| <= |CatIds(ev)|
  {
    NamesOf(CatIds(ev), m)
  }

  /** Every tag is a non-empty name the lookup holds. */
  lemma {:induction false} NamesOfValues(ids: seq<Key>, m: map<Key, string>)
    ensures forall i | 0 <= i < |NamesOf(ids, m)| :: NamesOf(ids, m)[i] != "" && NamesOf(ids, m)[i] in m.Values
    decreases |ids|
  {
    if ids != [] {
      NamesOfValues(ids[1..], m);
      var head := Tag(m, ids[0]);
      var tail := NamesOf(ids[1..], m);
      assert NamesOf(ids, m) == head + tail;
      if head != [] {
        assert head[0] in m.Values;
      }
      forall i | 0 <= i < |head + tail|
        ensures (head + tail)[i] != "" && (head + tail)[i] in m.Values
      {
        if i >= |head| {
          assert (head + tail)[i] == tail[i - |head|];
        }
      }
    }
  }

  /** Names follow the order of the ids: the names of a concatenation are
      the concatenation of the names. */
  lemma NamesOfAppend(a: seq<Key>, b: seq<Key>, m: map<Key, string>)
    ensures NamesOf(a + b, m) == NamesOf(a, m) + NamesOf(b, m)
  {
    FlatMapAppend(a, b, (id: Key) => Tag(m, id));
  }

  /** An id the lookup lacks, or maps to an empty name, contributes nothing
      and raises nothing; any other id contributes its name, once per
      occurrence. */
  lemma NamesOfOneId(pre: seq<Key>, id: Key, post: seq<Key>, m: map<Key, string>)
    ensures id !in m || m[id] == "" ==> NamesOf(pre + [id] + post, m) == NamesOf(pre, m) + NamesOf(post, m)
    ensures id in m && m[id] != "" ==> NamesOf(pre + [id] + post, m) == NamesOf(pre, m) + [m[id]] + NamesOf(post, m)
  {
    FlatMapSplit(pre, id, post, (k: Key) => Tag(m, k));
  }

  /** A record without `categoryIds` has no tags. */
  lemma NamesWithoutIds(ev: Event, m: map<Key, string>)
    requires ev.categoryIds.None?
    ensures Names(ev, m) == []
  {
  }

  /** With the provider's category lookup, whose names are never empty, the
      tags are exactly the names of the ids that some category has, in the
      order of the ids: only dangling ids are dropped. */
  lemma {:induction false} NamesFromCategories(ids: seq<Key>, cats: seq<Category>)
    ensures var m := DataContext.CategoryIndex(cats);
      |NamesOf(ids, m)| == |Filter(ids, (k: Key) => k in m)|
      && forall i | 0 <= i < |NamesOf(ids, m)| ::
           Filter(ids, (k: Key) => k in m)[i] in m && NamesOf(ids, m)[i] == m[Filter(ids, (k: Key) => k in m)[i]]
    decreases |ids|
  {
    var m := DataContext.CategoryIndex(cats);
    var p := (k: Key) => k in m;
    if ids != [] {
      NamesFromCategories(ids[1..], cats);
      var head := Tag(m, ids[0]);
      var kept := if p(ids[0]) then [ids[0]] else [];
      var names := NamesOf(ids[1..], m);
      var rest := Filter(ids[1..], p);
      assert NamesOf(ids, m) == head + names;
      assert Filter(ids, p) == kept + rest;
      if ids[0] in m {
        assert m[ids[0]] != "";
      }
      assert |head| == |kept|;
      forall i | 0 <= i < |head + names|
        ensures (kept + rest)[i] in m && (head + names)[i] == m[(kept + rest)[i]]
      {
        if i >= |head| {
          assert (head + names)[i] == names[i - |head|];
          assert (kept + rest)[i] == rest[i - |head|];
        }
      }
    }
  }
}
