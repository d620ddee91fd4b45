/** The shared data provider: a local mirror of the server's events and
    categories, the single request helper it is built on, and the
    category id -> name lookup it derives. */
module DataContext {
  import opened Values
  import opened Records
  import opened Http
  import opened Seqs

  /** `new Error(`${res.status} ${res.statusText}`)` */
  function StatusError(status: int, statusText: string): Error {
    Error(DecimalString(status) + " " + statusText)
  }

  /** `fetchJson`: a status outside 200-299 is an error carrying the status
      and its text, 204 No Content is `null` (here `None`), and any other
      response is whatever parsing its body gives. */
  function FetchJson<T>(o: Outcome<T>): (r: Result<Option<T>>)
    ensures o.Rejected? ==> r == Err(o.reason)
    ensures r.Ok? ==> o.Received? && o.response.Ok()
  {
    match o
    case Rejected(e) => Err(e)
    case Received(res) =>
      if !res.Ok() then Err(StatusError(res.status, res.statusText))
      else if res.status == 204 then Ok(None)
      else match res.body
        case Json(v) => Ok(Some(v))
        case NotJson(e) => Err(e)
  }

  /** The three ways `fetchJson` reads a response that arrived. A failing
      status is an error naming the status and its text, whatever the body;
      204 is a null value whatever the body; any other success is the parsed
      body, or the parse error. */
  lemma FetchJsonClassifies<T>(res: Response<T>, other: Body<T>)
    ensures !res.Ok() ==>
      FetchJson(Received(res)) == Err(StatusError(res.status, res.statusText))
      == FetchJson(Received(res.(body := other)))
    ensures res.Ok() && res.status == 204 ==>
      FetchJson(Received(res)) == Ok(None) == FetchJson(Received(res.(body := other)))
    ensures res.Ok() && res.status != 204 ==>
      (FetchJson(Received(res)).Ok? <==> res.body.Json?) &&
      (res.body.Json? ==> FetchJson(Received(res)) == Ok(Some(res.body.value)))
    ensures FetchJson(Received(res)) == Ok(None) <==> res.status == 204
  {
  }

  /** The two `fetchJson` calls of `refresh`, awaited together with
      `Promise.all`. */
  function RefreshResult(evs: Outcome<seq<Event>>, cats: Outcome<seq<Category>>)
    : (r: Result<(seq<Event>, seq<Category>)>)
    ensures r.Ok? <==> FetchJson(evs).Ok? && FetchJson(cats).Ok?
    ensures FetchJson(evs).Err? ==> r == Err(FetchJson(evs).error)
  {
    var e := FetchJson(evs);
    var c := FetchJson(cats);
    if e.Err? then Err(e.error)
    else if c.Err? then Err(c.error)
    else Ok((e.value.GetOr([]), c.value.GetOr([])))
  }

  /** `prev.map((e) => (e.id === id ? updated : e))` */
  function ReplaceById(events: seq<Event>, id: Key, updated: Event): (r: seq<Event>)
    ensures |r| == |events|
  {
    seq(|events|, i requires 0 <= i < |events| => if events[i].id == id then updated else events[i])
  }

  /** `prev.filter((e) => e.id !== id)` */
  function RemoveById(events: seq<Event>, id: Key): (r: seq<Event>)
    ensures |r| <= |events|
  {
    Filter(events, (e: Event) => e.id != id)
  }

  predicate HasId(events: seq<Event>, id: Key) {
    exists i | 0 <= i < |events| :: events[i].id == id
  }

  /** An update keeps the list's length and every record with another id at
      its position; each record with the id becomes the server's version, and
      an id no record has changes nothing. */
  lemma ReplaceByIdSpec(events: seq<Event>, id: Key, updated: Event)
    ensures |ReplaceById(events, id, updated)| == |events|
    ensures forall i | 0 <= i < |events| && events[i].id != id :: ReplaceById(events, id, updated)[i] == events[i]
    ensures forall i | 0 <= i < |events| && events[i].id == id :: ReplaceById(events, id, updated)[i] == updated
    ensures !HasId(events, id) ==> ReplaceById(events, id, updated) == events
  {
  }

  /** A removal drops every record with the id and keeps all the others, as
      often as they occurred and in their original order. */
  lemma RemoveByIdKeepsOthers(events: seq<Event>, id: Key, e: Event)
    ensures multiset(RemoveById(events, id))[e] == if e.id != id then multiset(events)[e] else 0
    ensures IsSubsequence(RemoveById(events, id), events)
  {
    FilterCount(events, (e: Event) => e.id != id, e);
    FilterIsSubsequence(events, (e: Event) => e.id != id);
  }

  /** After a removal no record has the id; an id no record had changes
      nothing, and a present one makes the list shorter. */
  lemma RemoveByIdEffect(events: seq<Event>, id: Key)
    ensures !HasId(RemoveById(events, id), id)
    ensures !HasId(events, id) ==> RemoveById(events, id) == events
    ensures HasId(events, id) ==> |RemoveById(events, id)| < |events|
  {
    if !HasId(events, id) {
      FilterAll(events, (e: Event) => e.id != id);
    } else {
      var i :| 0 <= i < |events| && events[i].id == id;
      FilterDrops(events, (e: Event) => e.id != id, i);
    }
  }

  /** Removing a record after it was updated under the same id is removing
      it: the update leaves nothing behind. */
  lemma {:induction false} RemoveAfterReplace(events: seq<Event>, id: Key, updated: Event)
    requires updated.id == id
    ensures RemoveById(ReplaceById(events, id, updated), id) == RemoveById(events, id)
    decreases |events|
  {
    if events != [] {
      var p := (e: Event) => e.id != id;
      var r := ReplaceById(events, id, updated);
      RemoveAfterReplace(events[1..], id, updated);
      assert r == [r[0]] + ReplaceById(events[1..], id, updated);
      assert events == [events[0]] + events[1..];
      FilterAppend([r[0]], ReplaceById(events[1..], id, updated), p);
      FilterAppend([events[0]], events[1..], p);
    }
  }

  /** `c.name || String(c)`: a category object's string form is
      "[object Object]", so the fallback is never empty. */
  const ObjectString: string := "[object Object]"

  function DisplayName(c: Category): (r: string)
    ensures r != ""
    ensures c.name != "" ==> r == c.name
  {
    if c.name != "" then c.name else ObjectString
  }

  /** The lookup `categories.forEach((c) => m.set(c.id, ...))` builds: one
      key per category id, each value a non-empty display name. */
  function CategoryIndex(cats: seq<Category>): (m: map<Key, string>)
    ensures m.Keys == set i | 0 <= i < |cats| :: cats[i].id
    ensures forall k | k in m :: m[k] != ""
    decreases |cats|
  {
    if cats == [] then map[]
    else
      var last := cats[|cats| - 1];
      var m := CategoryIndex(cats[..|cats| - 1]);
      assert forall i | 0 <= i < |cats| - 1 :: cats[..|cats| - 1][i] == cats[i];
      m[last.id := DisplayName(last)]
  }

  /** With duplicate ids the last category wins, as with `Map.set`. */
  lemma {:induction false} CategoryIndexLastWins(cats: seq<Category>, i: nat)
    requires i < |cats|
    requires forall j | i < j < |cats| :: cats[j].id != cats[i].id
    ensures CategoryIndex(cats)[cats[i].id] == DisplayName(cats[i])
    decreases |cats|
  {
    if i < |cats| - 1 {
      var init := cats[..|cats| - 1];
      assert init[i] == cats[i];
      CategoryIndexLastWins(init, i);
    }
  }

  class Store {
    var events: seq<Event>
    var categories: seq<Category>
    var loading: bool
    var err: Option<Error>

    /** The provider's initial state: empty collections, loading. */
    constructor ()
      ensures events == [] && categories == [] && loading && err == None
    {
      events, categories, loading, err := [], [], true, None;
    }

    /** `refresh` up to its `await`: loading, no error. */
    method BeginRefresh()
      modifies this`loading, this`err
      ensures loading && err == None
    {
      loading := true;
      err := None;
    }

    /** `refresh` from its `await` on: both collections are replaced, or
        neither is and the error is recorded; loading is over either way. */
    method SettleRefresh(evs: Outcome<seq<Event>>, cats: Outcome<seq<Category>>)
      modifies this
      ensures !loading
      ensures RefreshResult(evs, cats).Ok? ==>
        && events == RefreshResult(evs, cats).value.0
        && categories == RefreshResult(evs, cats).value.1
        && err == old(err)
      ensures RefreshResult(evs, cats).Err? ==>
        && events == old(events) && categories == old(categories)
        && err == Some(RefreshResult(evs, cats).error)
    {
      var r := RefreshResult(evs, cats);
      if r.Ok? {
        events, categories := r.value.0, r.value.1;
      } else {
        err := Some(r.error);
      }
      loading := false;
    }

    /** `addEvent`: the server's record is appended once the POST succeeds;
        a failure leaves the list as it was and is handed to the caller. */
    method AddEvent(response: Outcome<Event>) returns (r: Result<Option<Event>>)
      modifies this`events
      ensures r == FetchJson(response)
      ensures r.Ok? && r.value.Some? ==> events == old(events) + [r.value.value]
      ensures !(r.Ok? && r.value.Some?) ==> events == old(events)
    {
      r := FetchJson(response);
      if r.Ok? && r.value.Some? {
        events := events + [r.value.value];
      }
    }

    /** `updateEvent`: once the PUT succeeds every record with the id is
        replaced by the server's version; a failure changes nothing. */
    method UpdateEvent(id: Key, response: Outcome<Event>) returns (r: Result<Option<Event>>)
      modifies this`events
      ensures r == FetchJson(response)
      ensures r.Ok? && r.value.Some? ==> events == ReplaceById(old(events), id, r.value.value)
      ensures !(r.Ok? && r.value.Some?) ==> events == old(events)
    {
      r := FetchJson(response);
      if r.Ok? && r.value.Some? {
        events := ReplaceById(events, id, r.value.value);
      }
    }

    /** `removeEvent`: once the DELETE succeeds the records with the id are
        dropped; a failure changes nothing and is handed to the caller. */
    method RemoveEvent<B>(id: Key, response: Outcome<B>) returns (failure: Option<Error>)
      modifies this`events
      ensures failure == (if FetchJson(response).Err? then Some(FetchJson(response).error) else None)
      ensures failure.None? ==> events == RemoveById(old(events), id)
      ensures failure.Some? ==> events == old(events)
    {
      var r := FetchJson(response);
      if r.Err? {
        failure := Some(r.error);
      } else {
        failure := None;
        events := RemoveById(events, id);
      }
    }

    /** `categoryMap`, rebuilt from the current categories. */
    method CategoryMap() returns (m: map<Key, string>)
      ensures m == CategoryIndex(categories)
    {
      m := map[];
      var i := 0;
      while i < |categories|
        invariant 0 <= i <= |categories|
        invariant m == CategoryIndex(categories[..i])
      {
        var c := categories[i];
        m := m[c.id := DisplayName(c)];
        i := i + 1;
        assert categories[..i][..i - 1] == categories[..i - 1];
      }
      assert categories[..i] == categories;
    }
  }
}
