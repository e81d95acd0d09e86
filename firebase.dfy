/** Check-ins as stored in the `checkins` collection of the document
    database: the fields `addCheckin` writes, the decoder `createCheckin`,
    and what the two check-in listeners hand to their callers. */
module FirebaseCheckins {
  import opened Wrappers
  import opened Models
  import opened Sequences

  /** A field value of a stored document. */
  datatype Value = VString(s: string) | VInt(i: int) | VBool(b: bool) | VNull | VTimestamp(t: Date)

  datatype Document = Document(documentID: string, data: map<string, Value>)

  datatype EventCheckin = EventCheckin(
    id: string, eventId: string, userId: string, checkedInById: string, checkedInAt: Date)

  /** `document[key] as? String`. */
  function StringField(doc: Document, key: string): (r: Option<string>)
    ensures r.Some? <==> key in doc.data && doc.data[key].VString?
    ensures r.Some? ==> doc.data[key] == VString(r.value)
  {
    if key in doc.data && doc.data[key].VString? then Some(doc.data[key].s) else None
  }

  /** All four check-in fields are present and hold strings. */
  predicate HasCheckinFields(doc: Document) {
    && StringField(doc, "eventId").Some?
    && StringField(doc, "userId").Some?
    && StringField(doc, "checkedInById").Some?
    && StringField(doc, "checkedInAt").Some?
  }

  /** `createCheckin(from:)`. `parseDate` stands for the ISO-8601 date
      formatter and `now` for `Date()`: an unreadable time becomes `now`. */
  function CreateCheckin(doc: Document, parseDate: string -> Option<Date>, now: Date): (r: Option<EventCheckin>)
    ensures r.Some? <==> HasCheckinFields(doc)
    ensures r.Some? ==>
      && r.value.id == doc.documentID
      && doc.data["eventId"] == VString(r.value.eventId)
      && doc.data["userId"] == VString(r.value.userId)
      && doc.data["checkedInById"] == VString(r.value.checkedInById)
    ensures r.Some? ==>
      var parsed := parseDate(doc.data["checkedInAt"].s);
      r.value.checkedInAt == if parsed.Some? then parsed.value else now
  {
    match (StringField(doc, "eventId"), StringField(doc, "userId"),
           StringField(doc, "checkedInById"), StringField(doc, "checkedInAt"))
    case (Some(eventId), Some(userId), Some(checkedInById), Some(dateString)) =>
      var date := parseDate(dateString);
      Some(EventCheckin(doc.documentID, eventId, userId, checkedInById,
                        if date.Some? then date.value else now))
    case _ => None
  }

  /** What the `streamCheckins` listener hands its handler for one snapshot:
      nothing at all when the snapshot is missing, otherwise the documents
      that convert, in document order. */
  function CheckinsDelivered(snapshot: Option<seq<Document>>, parseDate: string -> Option<Date>, now: Date)
    : (delivered: Option<seq<EventCheckin>>)
    ensures delivered.None? <==> snapshot.None?
    ensures delivered.Some? ==> |delivered.value| <= |snapshot.value|
    ensures delivered.Some? ==> forall c :: c in delivered.value ==>
      exists d :: d in snapshot.value && CreateCheckin(d, parseDate, now) == Some(c)
    ensures delivered.Some? ==> forall d :: d in snapshot.value && HasCheckinFields(d) ==>
      CreateCheckin(d, parseDate, now).value in delivered.value
  {
    match snapshot
    case None => None
    case Some(documents) => Some(CompactMap(documents, (d: Document) => CreateCheckin(d, parseDate, now)))
  }

  /** Delivery keeps document order: a snapshot split in two delivers the
      check-ins of the first part, then those of the second. */
  lemma CheckinsDeliveredInOrder(front: seq<Document>, back: seq<Document>,
                                 parseDate: string -> Option<Date>, now: Date)
    ensures CheckinsDelivered(Some(front + back), parseDate, now).value
         == CheckinsDelivered(Some(front), parseDate, now).value + CheckinsDelivered(Some(back), parseDate, now).value
  {
    CompactMapAppend(front, back, (d: Document) => CreateCheckin(d, parseDate, now));
  }

  /** A snapshot of well-formed documents loses none of them. */
  lemma WellFormedSnapshotDeliveredWhole(documents: seq<Document>, parseDate: string -> Option<Date>, now: Date)
    requires forall i :: 0 <= i < |documents| ==> HasCheckinFields(documents[i])
    ensures |CheckinsDelivered(Some(documents), parseDate, now).value| == |documents|
    ensures forall i :: 0 <= i < |documents| ==>
      CheckinsDelivered(Some(documents), parseDate, now).value[i].id == documents[i].documentID
  {
    CompactMapTotal(documents, (d: Document) => CreateCheckin(d, parseDate, now));
  }

  /** What the `streamCheckin` listener hands its handler: it is always
      called, with none when there is no first document. */
  function CheckinOfSnapshot(snapshot: Option<seq<Document>>, parseDate: string -> Option<Date>, now: Date)
    : (checkin: Option<EventCheckin>)
    ensures snapshot.None? || snapshot.value == [] ==> checkin.None?
    ensures snapshot.Some? && snapshot.value != [] ==> checkin == CreateCheckin(snapshot.value[0], parseDate, now)
  {
    if snapshot.Some? && |snapshot.value| > 0 then CreateCheckin(snapshot.value[0], parseDate, now) else None
  }

  /** The fields `addCheckin` stores; `checkedInAt` is the formatted current time. */
  function CheckinFields(userId: string, byUserId: string, eventId: string, checkedInAt: string): (fields: map<string, Value>)
    ensures fields.Keys == {"eventId", "userId", "checkedInById", "checkedInAt"}
  {
    map["eventId" := VString(eventId), "userId" := VString(userId),
        "checkedInById" := VString(byUserId), "checkedInAt" := VString(checkedInAt)]
  }

  /** A stored check-in reads back with the ids it was written with, and with
      its time whenever the formatter's output parses back to it. */
  lemma AddedCheckinReadsBack(documentID: string, userId: string, byUserId: string, eventId: string,
                              checkedInAt: Date, formatDate: Date -> string,
                              parseDate: string -> Option<Date>, now: Date)
    ensures var c := CreateCheckin(Document(documentID, CheckinFields(userId, byUserId, eventId, formatDate(checkedInAt))), parseDate, now);
      && c.Some?
      && c.value.id == documentID && c.value.eventId == eventId
      && c.value.userId == userId && c.value.checkedInById == byUserId
      && (parseDate(formatDate(checkedInAt)) == Some(checkedInAt) ==> c.value.checkedInAt == checkedInAt)
  {
  }
}
