/** The events overview: its own copy of the collections, the title search
    and category filter over them, and the form that creates an event. */
module EventsPage {
  import opened Values
  import opened Text
  import opened Records
  import opened Seqs
  import opened Http
  import opened Selection

  /** `ev.title.toLowerCase().includes(search.toLowerCase())`; the search
      text is lower-cased but not trimmed. */
  predicate TitleMatches(ev: Event, search: string): (r: bool)
    ensures r ==> |search| <= |ev.title|
  {
    Contains(Lower(ev.title), Lower(search))
  }

  /** `(ev.categoryIds || []).map(String).some((cid) => active.has(cid))`
      with `active = new Set(selectedCats)`. */
  predicate InSelection(ev: Event, selected: seq<string>) {
    exists i | 0 <= i < |CatIds(ev)| :: KeyString(CatIds(ev)[i]) in selected
  }

  /** Each filter applies only when it is switched on: a search that is not
      blank, a non-empty category selection. */
  predicate Active(ev: Event, search: string, selected: seq<string>) {
    && (Trim(search) == [] || TitleMatches(ev, search))
    && (|selected| == 0 || InSelection(ev, selected))
  }

  /** `filteredEvents` */
  function FilteredEvents(events: seq<Event>, search: string, selected: seq<string>): (r: seq<Event>)
    ensures |r| <= |events|
  {
    var afterSearch :=
      if Trim(search) != [] then Filter(events, (ev: Event) => TitleMatches(ev, search)) else events;
    if |selected| > 0 then Filter(afterSearch, (ev: Event) => InSelection(ev, selected)) else afterSearch
  }

  /** The two filters compose into one: an event is shown iff it passes
      every filter that is switched on. */
  lemma FilteredIsConjunction(events: seq<Event>, search: string, selected: seq<string>)
    ensures FilteredEvents(events, search, selected) == Filter(events, (ev: Event) => Active(ev, search, selected))
  {
    var bySearch := (ev: Event) => TitleMatches(ev, search);
    var byCats := (ev: Event) => InSelection(ev, selected);
    var both := (ev: Event) => Active(ev, search, selected);
    if Trim(search) != [] && |selected| > 0 {
      FilterFilter(events, bySearch, byCats, both);
    } else if Trim(search) != [] {
      FilterExt(events, bySearch, both);
    } else if |selected| > 0 {
      FilterExt(events, byCats, both);
    } else {
      FilterAll(events, both);
    }
  }

  /** The view is a subsequence of the events: their order is kept, each
      shown event appears as often as in the list, and an event is shown iff
      it passes the active filters. */
  lemma FilteredKeepsOrder(events: seq<Event>, search: string, selected: seq<string>, ev: Event)
    ensures IsSubsequence(FilteredEvents(events, search, selected), events)
    ensures multiset(FilteredEvents(events, search, selected))[ev] ==
      if Active(ev, search, selected) then multiset(events)[ev] else 0
    ensures ev in FilteredEvents(events, search, selected) <==> ev in events && Active(ev, search, selected)
  {
    var both := (e: Event) => Active(e, search, selected);
    FilteredIsConjunction(events, search, selected);
    FilterIsSubsequence(events, both);
    FilterCount(events, both, ev);
  }

  /** A blank search and no selected category show every event. */
  lemma FilterOffIsIdentity(events: seq<Event>, search: string)
    requires IsBlank(search)
    ensures FilteredEvents(events, search, []) == events
  {
    TrimSpec(search);
  }

  /** Filtering the view again with the same inputs changes nothing. */
  lemma FilterIdempotent(events: seq<Event>, search: string, selected: seq<string>)
    ensures FilteredEvents(FilteredEvents(events, search, selected), search, selected)
         == FilteredEvents(events, search, selected)
  {
    var both := (e: Event) => Active(e, search, selected);
    FilteredIsConjunction(events, search, selected);
    FilteredIsConjunction(FilteredEvents(events, search, selected), search, selected);
    FilterTwice(events, both);
  }

  /** With a category selected, an event without category ids is never
      shown. */
  lemma UncategorisedHidden(events: seq<Event>, search: string, selected: seq<string>, ev: Event)
    requires |selected| > 0 && CatIds(ev) == []
    ensures ev !in FilteredEvents(events, search, selected)
  {
    FilteredKeepsOrder(events, search, selected, ev);
  }

  /** Appending a created event extends the view by that event when it
      passes the filters, and leaves it as it was otherwise. */
  lemma FilterAfterAppend(events: seq<Event>, created: Event, search: string, selected: seq<string>)
    ensures FilteredEvents(events + [created], search, selected) ==
      FilteredEvents(events, search, selected) + (if Active(created, search, selected) then [created] else [])
  {
    var both := (e: Event) => Active(e, search, selected);
    FilteredIsConjunction(events + [created], search, selected);
    FilteredIsConjunction(events, search, selected);
    FilterAppend(events, [created], both);
  }

  /** One event, "Jazz Night", in category 10. */
  function JazzNight(): Event {
    Event(Num(1), "Jazz Night", "", "", "", "", "", Some([Num(10)]), map[])
  }

  lemma JazzSearchIsCaseInsensitive(search: string)
    requires search == "jazz" || search == "JAZZ"
    ensures Trim(search) != [] && TitleMatches(JazzNight(), search)
  {
    assert Lower("Jazz Night")[..4] == "jazz";
    assert Lower(search) == "jazz";
    assert OccursAt(Lower("Jazz Night"), Lower(search), 0);
    TrimKeepsSolidEnds(search);
  }

  /** Its one category id reads "10". */
  lemma JazzNightCategory()
    ensures CatIds(JazzNight()) == [Num(10)] && KeyString(Num(10)) == "10"
  {
    assert Digits(10) == Digits(1) + [DigitChar(0)];
  }

  /** Searching "jazz" finds it. */
  lemma JazzFoundBySearch()
    ensures FilteredEvents([JazzNight()], "jazz", []) == [JazzNight()]
  {
    JazzSearchIsCaseInsensitive("jazz");
  }

  /** Selecting only category 20 hides it. */
  lemma JazzHiddenByOtherCategory()
    ensures FilteredEvents([JazzNight()], "", ["20"]) == []
  {
    JazzNightCategory();
    assert !InSelection(JazzNight(), ["20"]);
  }

  /** "JAZZ" with category 10 selected finds it. */
  lemma JazzFoundWithItsCategory()
    ensures FilteredEvents([JazzNight()], "JAZZ", ["10"]) == [JazzNight()]
  {
    JazzSearchIsCaseInsensitive("JAZZ");
    JazzNightCategory();
    assert KeyString(CatIds(JazzNight())[0]) in ["10"];
    assert InSelection(JazzNight(), ["10"]);
  }

  /** The body of the create request: the form's values, no id, and the
      selected ids as numbers in the order they were checked. */
  datatype Draft = Draft(
    title: string,
    description: string,
    image: string,
    location: string,
    startTime: string,
    endTime: string,
    categoryIds: seq<JsNumber>)

  /** The create payload; `startTime` and `endTime` are what
      `fromDateTimeLocal` made of the two date inputs. */
  function CreatePayload(
    title: string, description: string, image: string, location: string,
    startTime: string, endTime: string, selected: seq<string>): (r: Draft)
    ensures |r.categoryIds| == |selected|
  {
    Draft(title, description, image, location, startTime, endTime, Numbers(selected))
  }

  /** Checking categories with numeric ids sends exactly those ids, as
      numbers, in checking order. */
  lemma CreatePayloadIds(
    title: string, description: string, image: string, location: string,
    startTime: string, endTime: string, ids: seq<Key>)
    requires AllNumeric(ids)
    ensures CreatePayload(title, description, image, location, startTime, endTime, Stringified(ids)).categoryIds
         == AsNumbers(ids)
  {
    NumbersOfStringified(ids);
  }

  /** `EventsPage`'s state. */
  class Page {
    var events: seq<Event>
    var categories: seq<Category>
    var err: Option<Error>
    var loading: bool
    var search: string
    var selectedCats: seq<string>

    constructor ()
      ensures events == [] && categories == [] && err == None && loading
      ensures search == "" && selectedCats == []
    {
      events, categories, err, loading := [], [], None, true;
      search, selectedCats := "", [];
    }

    /** The list shown under the filters. */
    function Shown(): seq<Event>
      reads this
    {
      FilteredEvents(events, search, selectedCats)
    }

    /** The load effect up to its `await`. */
    method BeginLoad()
      modifies this`loading, this`err
      ensures loading && err == None
    {
      loading := true;
      err := None;
    }

    /** The load effect from its `await` on: both collections or neither. */
    method SettleLoad(evs: Outcome<seq<Event>>, cats: Outcome<seq<Category>>)
      modifies this`events, this`categories, this`err, this`loading
      ensures !loading
      ensures LoadBoth(evs, "Events", cats, "Categories").Ok? ==>
        && events == LoadBoth(evs, "Events", cats, "Categories").value.0
        && categories == LoadBoth(evs, "Events", cats, "Categories").value.1
        && err == old(err)
      ensures LoadBoth(evs, "Events", cats, "Categories").Err? ==>
        && events == old(events) && categories == old(categories)
        && err == Some(LoadBoth(evs, "Events", cats, "Categories").error)
    {
      var r := LoadBoth(evs, "Events", cats, "Categories");
      if r.Ok? {
        events, categories := r.value.0, r.value.1;
      } else {
        err := Some(r.error);
      }
      loading := false;
    }

    /** The search box's `onChange`. */
    method SetSearch(text: string)
      modifies this`search
      ensures search == text
    {
      search := text;
    }

    /** A category filter checkbox. */
    method ToggleCategory(id: string)
      modifies this`selectedCats
      ensures selectedCats == Toggle(old(selectedCats), id)
    {
      selectedCats := Toggle(selectedCats, id);
    }

    /** `onCreated`: the server's record goes at the end, and the view
        gains it exactly when it passes the filters. */
    method OnCreated(created: Event)
      modifies this`events
      ensures events == old(events) + [created]
      ensures Shown() == old(Shown()) + (if Active(created, search, selectedCats) then [created] else [])
    {
      FilterAfterAppend(events, created, search, selectedCats);
      events := events + [created];
    }
  }

  /** `AddEventModal`'s form state. */
  class AddForm {
    var title: string
    var description: string
    var image: string
    var location: string
    var startLocal: string
    var endLocal: string
    var selectedCats: seq<string>
    var submitting: bool

    predicate Cleared()
      reads this
    {
      title == "" && description == "" && image == "" && location == ""
      && startLocal == "" && endLocal == "" && selectedCats == []
    }

    constructor ()
      ensures Cleared() && !submitting
    {
      title, description, image, location := "", "", "", "";
      startLocal, endLocal, selectedCats, submitting := "", "", [], false;
    }

    /** The inputs' `onChange` handlers. */
    method SetInputs(title': string, description': string, image': string, location': string,
                     startLocal': string, endLocal': string)
      modifies this`title, this`description, this`image, this`location, this`startLocal, this`endLocal
      ensures title == title' && description == description' && image == image'
      ensures location == location' && startLocal == startLocal' && endLocal == endLocal'
    {
      title, description, image, location := title', description', image', location';
      startLocal, endLocal := startLocal', endLocal';
    }

    method ToggleCategory(id: string)
      modifies this`selectedCats
      ensures selectedCats == Toggle(old(selectedCats), id)
    {
      selectedCats := Toggle(selectedCats, id);
    }

    /** `resetForm` */
    method Reset()
      modifies this`title, this`description, this`image, this`location, this`startLocal,
               this`endLocal, this`selectedCats
      ensures Cleared()
    {
      title, description, image, location := "", "", "", "";
      startLocal, endLocal, selectedCats := "", "", [];
    }

    /** `handleSubmit` up to its `await`: the payload sent with the POST;
        `startTime` and `endTime` are the converted date inputs. */
    method BeginSubmit(startTime: string, endTime: string) returns (payload: Draft)
      modifies this`submitting
      ensures submitting
      ensures payload == CreatePayload(title, description, image, location, startTime, endTime, selectedCats)
    {
      submitting := true;
      payload := CreatePayload(title, description, image, location, startTime, endTime, selectedCats);
    }

    /** `handleSubmit` from its `await` on: a created record reaches the page
        and clears the form; a failure changes neither. */
    method SettleSubmit(response: Outcome<Event>, page: Page)
      modifies this, page`events
      ensures !submitting
      ensures ReadJson(response, "Create").Ok? ==>
        page.events == old(page.events) + [ReadJson(response, "Create").value] && Cleared()
      ensures ReadJson(response, "Create").Err? ==>
        && page.events == old(page.events)
        && title == old(title) && description == old(description) && image == old(image)
        && location == old(location) && startLocal == old(startLocal) && endLocal == old(endLocal)
        && selectedCats == old(selectedCats)
    {
      var r := ReadJson(response, "Create");
      if r.Ok? {
        page.OnCreated(r.value);
        Reset();
      }
      submitting := false;
    }

    /** `handleCancel`: ignored while a request is pending. */
    method Cancel()
      modifies this`title, this`description, this`image, this`location, this`startLocal,
               this`endLocal, this`selectedCats
      ensures old(submitting) ==> unchanged(this)
      ensures !old(submitting) ==> Cleared()
    {
      if !submitting {
        Reset();
      }
    }
  }
}
