/** The category checkbox toggle shared by the events page filter, the
    create form and the edit form: `prev.includes(id) ? prev.filter((x) =>
    x !== id) : [...prev, id]`. */
module Selection {
  import opened Seqs

  function Toggle(selected: seq<string>, id: string): (r: seq<string>)
    ensures id in r <==> id !in selected
    ensures forall x: string | x != id :: x in r <==> x in selected
  {
    if id in selected then Filter(selected, (x: string) => x != id) else selected + [id]
  }

  /** Toggling an id on removes every copy of it and keeps the other ids as
      often as they were there, in their order; toggling an absent id adds it
      at the end. */
  lemma ToggleEffect(selected: seq<string>, id: string, x: string)
    ensures id !in selected ==> Toggle(selected, id) == selected + [id]
    ensures id in selected ==>
      && IsSubsequence(Toggle(selected, id), selected)
      && multiset(Toggle(selected, id))[x] == if x == id then 0 else multiset(selected)[x]
  {
    if id in selected {
      FilterIsSubsequence(selected, (y: string) => y != id);
      FilterCount(selected, (y: string) => y != id, x);
    }
  }

  /** Checking and then unchecking a box that was not checked restores the
      selection exactly. */
  lemma ToggleTwiceRestores(selected: seq<string>, id: string)
    requires id !in selected
    ensures Toggle(Toggle(selected, id), id) == selected
  {
    var p := (x: string) => x != id;
    FilterAppend(selected, [id], p);
    FilterAll(selected, p);
  }

  /** A selection built by toggling never holds an id twice. */
  lemma ToggleKeepsDistinct(selected: seq<string>, id: string)
    requires Distinct(selected)
    ensures Distinct(Toggle(selected, id))
  {
    if id in selected {
      FilterDistinct(selected, (x: string) => x != id);
    }
  }
}
