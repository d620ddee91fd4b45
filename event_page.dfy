/** The detail page of one event: its load, the category names it shows,
    and the edit form with its full-record update. */
module EventPage {
  import opened Values
  import opened Records
  import opened Http
  import opened Selection
  import opened Seqs

  /** `String(c.id) === String(cid)` */
  predicate Matches(c: Category, cid: Key) {
    KeyString(c.id) == KeyString(cid)
  }

  /** Comparing string forms lets a number and its decimal text find the
      same category. */
  lemma MatchesAcrossTypes(c: Category, n: int)
    requires c.id == Num(n)
    ensures Matches(c, Num(n)) && Matches(c, Str(DecimalString(n)))
    ensures n == 1 ==> Matches(c, Str("1"))
  {
    if n == 1 {
      assert DecimalString(1) == "1";
    }
  }

  /** No category's id has the string form of `cid`. */
  predicate NoMatch(cats: seq<Category>, cid: Key) {
    forall i | 0 <= i < |cats| :: !Matches(cats[i], cid)
  }

  /** `categories.find((c) => String(c.id) === String(cid))` */
  function FindCategory(cats: seq<Category>, cid: Key): (r: Option<Category>)
    ensures r.Some? ==> r.value in cats && Matches(r.value, cid)
    ensures r.None? ==> NoMatch(cats, cid)
    decreases |cats|
  {
    if cats == [] then None
    else if Matches(cats[0], cid) then Some(cats[0])
    else FindCategory(cats[1..], cid)
  }

  /** The category found is the first one whose id has the same string
      form. */
  lemma {:induction false} FindCategoryIsFirst(cats: seq<Category>, cid: Key, i: nat)
    requires i < |cats| && Matches(cats[i], cid)
    requires forall j | 0 <= j < i :: !Matches(cats[j], cid)
    ensures FindCategory(cats, cid) == Some(cats[i])
    decreases i
  {
    if i > 0 {
      FindCategoryIsFirst(cats[1..], cid, i - 1);
    }
  }

  /** When no category's id has the string form of `cid`, nothing is
      found. */
  lemma {:induction false} FindCategoryMissing(cats: seq<Category>, cid: Key)
    requires NoMatch(cats, cid)
    ensures FindCategory(cats, cid) == None
    decreases |cats|
  {
    if cats != [] {
      assert !Matches(cats[0], cid);
      FindCategoryMissing(cats[1..], cid);
    }
  }

  /** The name one id resolves to, if any. */
  function NameOf(cats: seq<Category>, cid: Key): (r: seq<string>)
    ensures |r| <= 1
  {
    match FindCategory(cats, cid)
    case Some(c) => [c.name]
    case None => []
  }

  /** `ids.map(find).filter(Boolean).map((c) => c.name)` */
  function NamesFound(ids: seq<Key>, cats: seq<Category>): (r: seq<string>)
    ensures |r| <= |ids|
  {
    FlatMapAtMostOne(ids, (cid: Key) => NameOf(cats, cid));
    FlatMap(ids, (cid: Key) => NameOf(cats, cid))
  }

  /** `categoryNames` */
  function CategoryNames(ev: Event, cats: seq<Category>): (r: seq<string>)
    ensures |r| <= |CatIds(ev)|
  {
    NamesFound(CatIds(ev), cats)
  }

  /** Names follow the order of the ids. */
  lemma NamesFoundAppend(a: seq<Key>, b: seq<Key>, cats: seq<Category>)
    ensures NamesFound(a + b, cats) == NamesFound(a, cats) + NamesFound(b, cats)
  {
    FlatMapAppend(a, b, (cid: Key) => NameOf(cats, cid));
  }

  /** An id that no category has contributes nothing and raises nothing. */
  lemma NamesFoundSkipsDangling(pre: seq<Key>, id: Key, post: seq<Key>, cats: seq<Category>)
    requires NoMatch(cats, id)
    ensures NamesFound(pre + [id] + post, cats) == NamesFound(pre, cats) + NamesFound(post, cats)
  {
    FlatMapSplit(pre, id, post, (cid: Key) => NameOf(cats, cid));
    FindCategoryMissing(cats, id);
  }

  /** Any other id contributes the name of the first category whose id has
      the same string form, once per occurrence: a repeated id repeats its
      name. */
  lemma NamesFoundFirstMatch(pre: seq<Key>, id: Key, post: seq<Key>, cats: seq<Category>, i: nat)
    requires i < |cats| && Matches(cats[i], id)
    requires forall j | 0 <= j < i :: !Matches(cats[j], id)
    ensures NamesFound(pre + [id] + post, cats) == NamesFound(pre, cats) + [cats[i].name] + NamesFound(post, cats)
  {
    FlatMapSplit(pre, id, post, (cid: Key) => NameOf(cats, cid));
    FindCategoryIsFirst(cats, id, i);
  }

  /** A record without `categoryIds` shows no category names. */
  lemma NamesWithoutIds(ev: Event, cats: seq<Category>)
    requires ev.categoryIds.None?
    ensures CategoryNames(ev, cats) == []
  {
  }

  /** The body of the PUT request: the whole record, with the form's fields
      in place of the record's. */
  datatype Update = Update(
    id: Key,
    title: string,
    description: string,
    image: string,
    location: string,
    startTime: string,
    endTime: string,
    categoryIds: seq<JsNumber>,
    otherFields: map<string, string>)

  /** `{ ...event, title, description, image, location, startTime, endTime,
      categoryIds: selectedCategoryIds.map((id) => Number(id)) }`;
      `startTime` and `endTime` are what `fromDateTimeLocal` made of the two
      date inputs. */
  function EditPayload(
    event: Event, title: string, description: string, image: string, location: string,
    startTime: string, endTime: string, selected: seq<string>): (r: Update)
    ensures r.id == event.id && r.otherFields == event.otherFields
    ensures |r.categoryIds| == |selected|
  {
    Update(event.id, title, description, image, location, startTime, endTime,
           Numbers(selected), event.otherFields)
  }

  /** A record as it would be sent back unchanged, its category ids as
      numbers. */
  function Unchanged(event: Event): Update
    requires AllNumeric(CatIds(event))
  {
    Update(event.id, event.title, event.description, event.image, event.location,
           event.startTime, event.endTime, AsNumbers(CatIds(event)), event.otherFields)
  }

  /** Opening the form on a record and saving it untouched sends that record
      back with the same id and other fields, the same texts, and the same
      numeric category ids in the same order (a missing list becomes `[]`).
      Only the two times are replaced, by `st` and `et`: what
      `fromDateTimeLocal(toDateTimeLocal(...))` makes of the record's times,
      which keeps the minute but not the original text. */
  lemma EditRoundTrip(event: Event, st: string, et: string)
    requires AllNumeric(CatIds(event))
    ensures EditPayload(event, event.title, event.description, event.image, event.location,
                        st, et, Stringified(CatIds(event)))
         == Unchanged(event).(startTime := st, endTime := et)
  {
    NumbersOfStringified(CatIds(event));
  }

  /** `EventPage`'s state. */
  class Page {
    var event: Option<Event>
    var categories: seq<Category>
    var err: Option<Error>
    var loading: bool

    constructor ()
      ensures event == None && categories == [] && err == None && loading
    {
      event, categories, err, loading := None, [], None, true;
    }

    /** The load effect up to its `await`. */
    method BeginLoad()
      modifies this`err, this`loading
      ensures err == None && loading
    {
      err := None;
      loading := true;
    }

    /** The load effect from its `await` on: the event and the categories
        together, or neither and the error. */
    method SettleLoad(ev: Outcome<Event>, cats: Outcome<seq<Category>>)
      modifies this`event, this`categories, this`err, this`loading
      ensures !loading
      ensures LoadBoth(ev, "Event", cats, "Categories").Ok? ==>
        && event == Some(LoadBoth(ev, "Event", cats, "Categories").value.0)
        && categories == LoadBoth(ev, "Event", cats, "Categories").value.1
        && err == old(err)
      ensures LoadBoth(ev, "Event", cats, "Categories").Err? ==>
        && event == old(event) && categories == old(categories)
        && err == Some(LoadBoth(ev, "Event", cats, "Categories").error)
    {
      var r := LoadBoth(ev, "Event", cats, "Categories");
      if r.Ok? {
        event, categories := Some(r.value.0), r.value.1;
      } else {
        err := Some(r.error);
      }
      loading := false;
    }

    /** `onUpdated`: the page shows the server's version. */
    method OnUpdated(updated: Event)
      modifies this`event
      ensures event == Some(updated)
    {
      event := Some(updated);
    }
  }

  /** `EditEventModal`'s form state. */
  class EditForm {
    var title: string
    var description: string
    var image: string
    var location: string
    var startLocal: string
    var endLocal: string
    var selectedCategoryIds: seq<string>
    var submitting: bool
    var submitError: Option<string>

    constructor ()
      ensures title == "" && description == "" && image == "" && location == ""
      ensures startLocal == "" && endLocal == "" && selectedCategoryIds == []
      ensures !submitting && submitError == None
    {
      title, description, image, location := "", "", "", "";
      startLocal, endLocal, selectedCategoryIds := "", "", [];
      submitting, submitError := false, None;
    }

    /** The effect that fills the form when it opens on a record;
        `startLocal'` and `endLocal'` are what `toDateTimeLocal` made of the
        record's times. */
    method Open(event: Event, startLocal': string, endLocal': string)
      modifies this`title, this`description, this`image, this`location, this`startLocal,
               this`endLocal, this`selectedCategoryIds, this`submitError
      ensures title == event.title && description == event.description
      ensures image == event.image && location == event.location
      ensures startLocal == startLocal' && endLocal == endLocal'
      ensures selectedCategoryIds == Stringified(CatIds(event))
      ensures submitError == None
    {
      title, description, image, location := event.title, event.description, event.image, event.location;
      startLocal, endLocal := startLocal', endLocal';
      selectedCategoryIds := Stringified(CatIds(event));
      submitError := None;
    }

    /** The inputs' `onChange` handlers. */
    method SetInputs(title': string, description': string, image': string, location': string,
                     startLocal': string, endLocal': string)
      modifies this`title, this`description, this`image, this`location, this`startLocal, this`endLocal
      ensures title == title' && description == description' && image == image'
      ensures location == location' && startLocal == startLocal' && endLocal == endLocal'
    {
      title, description, image, location := title', description', image', location';
      startLocal, endLocal := startLocal', endLocal';
    }

    method ToggleCategory(id: string)
      modifies this`selectedCategoryIds
      ensures selectedCategoryIds == Toggle(old(selectedCategoryIds), id)
    {
      selectedCategoryIds := Toggle(selectedCategoryIds, id);
    }

    /** `handleSubmit` up to its `await`: the payload of the PUT. */
    method BeginSubmit(event: Event, startTime: string, endTime: string) returns (payload: Update)
      modifies this`submitting, this`submitError
      ensures submitting && submitError == None
      ensures payload == EditPayload(event, title, description, image, location, startTime, endTime,
                                     selectedCategoryIds)
    {
      submitting := true;
      submitError := None;
      payload := EditPayload(event, title, description, image, location, startTime, endTime,
                             selectedCategoryIds);
    }

    /** `handleSubmit` from its `await` on: the page gets the server's
        version, or keeps its record while the form shows the error. */
    method SettleSubmit(response: Outcome<Event>, page: Page)
      modifies this`submitting, this`submitError, page`event
      ensures !submitting
      ensures ReadJson(response, "Update").Ok? ==>
        page.event == Some(ReadJson(response, "Update").value) && submitError == old(submitError)
      ensures ReadJson(response, "Update").Err? ==>
        page.event == old(page.event) && submitError == Some(ReadJson(response, "Update").error.message)
    {
      var r := ReadJson(response, "Update");
      if r.Ok? {
        page.OnUpdated(r.value);
      } else {
        submitError := Some(r.error.message);
      }
      submitting := false;
    }
  }
}
