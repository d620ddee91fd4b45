/** The two record kinds the JSON server stores. */
module Records {
  import opened Values

  /** An event as `GET /events` returns it. A record without `categoryIds`
      (or with `null` there) has `None`; `otherFields` are the fields no form
      of the application edits, which a full update must send back. */
  datatype Event = Event(
    id: Key,
    title: string,
    description: string,
    image: string,
    location: string,
    startTime: string,
    endTime: string,
    categoryIds: Option<seq<Key>>,
    otherFields: map<string, string>)

  /** A category; a missing name is the empty string (both are falsy). */
  datatype Category = Category(id: Key, name: string)

  /** `ev.categoryIds || []` */
  function CatIds(ev: Event): seq<Key> {
    ev.categoryIds.GetOr([])
  }
}
