/**
 * The calendar document `create_calendar_event` builds (RFC 5545).
 *
 * `Event` and `ICalendar` are the mutable builders the program fills one
 * `push` at a time; `Calendar`, `VEvent` and `Property` are the values they
 * hold. Serialisation, line folding and `escape_text` belong to the `ics`
 * library: the escaping function is a parameter.
 */
module Ics {
  import opened Events

  /** The properties csv2ics puts on an event, one per `ics` property type. */
  datatype PropertyName = Organizer | DtStart | DtEnd | Status | Categories | Summary | Description
  {
    /** The name the property has in RFC 5545 (section 3.8). */
    function Text(): string
    {
      match this
      case Organizer => "ORGANIZER"
      case DtStart => "DTSTART"
      case DtEnd => "DTEND"
      case Status => "STATUS"
      case Categories => "CATEGORIES"
      case Summary => "SUMMARY"
      case Description => "DESCRIPTION"
    }
  }

  /** Distinct properties are written under distinct names. */
  lemma PropertyNameTextInjective(a: PropertyName, b: PropertyName)
    ensures a.Text() == b.Text() <==> a == b
  {
    if a != b {
      assert |a.Text()| != |b.Text()| || a.Text()[0] != b.Text()[0];
    }
  }

  /** A content line of an event: which property, and its value. */
  datatype Property = Property(name: PropertyName, value: string)

  /** A VEVENT component: its UID, its DTSTAMP and the properties pushed onto it. */
  datatype VEvent = VEvent(uid: string, dtstamp: string, properties: seq<Property>)

  /** A VCALENDAR object: VERSION, PRODID and its events. */
  datatype Calendar = Calendar(version: string, prodid: string, events: seq<VEvent>)

  /** VERSION, section 3.7.4 of RFC 5545. */
  const Version: string := "2.0"

  const ProdIdPrefix: string := "-//"
  const ProdIdSuffix: string := "//NONSGML PDA Calendar Version 1.0//EN"

  /** PRODID (section 3.7.3 of RFC 5545) naming the configured company. */
  function ProdId(company: string): string
  {
    ProdIdPrefix + company + ProdIdSuffix
  }

  /** The company a PRODID of this program's shape names, if it has that shape. */
  function CompanyOf(prodid: string): (r: Option<string>)
    ensures r.Some? ==> ProdId(r.value) == prodid
    ensures r.Some? <==> |prodid| >= |ProdIdPrefix| + |ProdIdSuffix|
                         && prodid[..|ProdIdPrefix|] == ProdIdPrefix
                         && prodid[|prodid| - |ProdIdSuffix|..] == ProdIdSuffix
  {
    var n := |prodid|;
    if n >= |ProdIdPrefix| + |ProdIdSuffix|
       && prodid[..|ProdIdPrefix|] == ProdIdPrefix
       && prodid[n - |ProdIdSuffix|..] == ProdIdSuffix
    then
      var company := prodid[|ProdIdPrefix|..n - |ProdIdSuffix|];
      assert prodid == prodid[..|ProdIdPrefix|] + company + prodid[n - |ProdIdSuffix|..];
      Some(company)
    else None
  }

  /** The company name is recovered from the PRODID built from it. */
  lemma CompanyOfProdId(company: string)
    ensures CompanyOf(ProdId(company)) == Some(company)
  {
    var p := ProdId(company);
    assert p[..|ProdIdPrefix|] == ProdIdPrefix;
    assert p[|p| - |ProdIdSuffix|..] == ProdIdSuffix;
    assert p[|ProdIdPrefix|..|p| - |ProdIdSuffix|] == company;
  }

  /** Distinct company names give distinct PRODIDs. */
  lemma ProdIdInjective(c1: string, c2: string)
    ensures ProdId(c1) == ProdId(c2) ==> c1 == c2
  {
    CompanyOfProdId(c1);
    CompanyOfProdId(c2);
  }

  /** The property names of an event, in the order they were pushed. */
  const EventPropertyNames: seq<PropertyName> :=
    [Organizer, DtStart, DtEnd, Status, Categories, Summary, Description]

  /** The value `Status::confirmed()` carries. */
  const Confirmed: string := "CONFIRMED"

  /** The one category every event is filed under. */
  const TicketCategory: string := "Ticket"

  /** The value of the first property called `name`. */
  function Lookup(props: seq<Property>, name: PropertyName): Option<string>
  {
    if props == [] then None
    else if props[0].name == name then Some(props[0].value)
    else Lookup(props[1..], name)
  }

  /** Lookup finds a value exactly when some property has the name, and the value is that property's. */
  lemma {:induction false} LookupSome(props: seq<Property>, name: PropertyName)
    ensures Lookup(props, name).Some? <==> exists i :: 0 <= i < |props| && props[i].name == name
    ensures Lookup(props, name).Some? ==>
              exists i :: 0 <= i < |props| && props[i] == Property(name, Lookup(props, name).value)
  {
    if props != [] && props[0].name != name {
      LookupSome(props[1..], name);
      assert forall i :: 1 <= i < |props| ==> props[i] == props[1..][i - 1];
    }
  }

  /** Lookup finds the first property carrying the name. */
  lemma {:induction false} LookupFirst(props: seq<Property>, i: nat)
    requires i < |props|
    requires forall j :: 0 <= j < i ==> props[j].name != props[i].name
    ensures Lookup(props, props[i].name) == Some(props[i].value)
  {
    if i > 0 {
      assert forall j :: 0 <= j < i - 1 ==> props[1..][j] == props[j + 1];
      LookupFirst(props[1..], i - 1);
    }
  }

  /** The properties pushed onto the event for one row, in push order. */
  function EventProperties(e: EventData, escape: string -> string): seq<Property>
  {
    [ Property(Organizer, e.organizer),
      Property(DtStart, e.startTime),
      Property(DtEnd, e.endTime),
      Property(Status, Confirmed),
      Property(Categories, TicketCategory),
      Property(Summary, e.summary),
      Property(Description, escape(e.description)) ]
  }

  /** The document `create_calendar_event` builds for one normalised row. */
  function CalendarFor(e: EventData, company: string, escape: string -> string): Calendar
  {
    Calendar(Version, ProdId(company), [VEvent(e.guid, e.startTime, EventProperties(e, escape))])
  }

  /**
   * The document has VERSION 2.0, this program's PRODID for the company,
   * exactly one event, whose UID is the id and whose DTSTAMP is the start,
   * and its properties bear the fixed names in the fixed order, each once.
   */
  lemma CalendarForShape(e: EventData, company: string, escape: string -> string)
    ensures CalendarFor(e, company, escape).version == "2.0"
    ensures CalendarFor(e, company, escape).prodid
              == "-//" + company + "//NONSGML PDA Calendar Version 1.0//EN"
    ensures |CalendarFor(e, company, escape).events| == 1
    ensures CalendarFor(e, company, escape).events[0].uid == e.guid
    ensures CalendarFor(e, company, escape).events[0].dtstamp == e.startTime
    ensures |CalendarFor(e, company, escape).events[0].properties| == |EventPropertyNames|
    ensures forall i :: 0 <= i < |EventPropertyNames| ==>
              CalendarFor(e, company, escape).events[0].properties[i].name == EventPropertyNames[i]
    ensures forall i, j :: 0 <= i < j < |EventPropertyNames| ==> EventPropertyNames[i] != EventPropertyNames[j]
  {
  }

  /**
   * Reading the event back by property name yields the row's fields: the
   * organizer, the compact start and end, the summary and the escaped
   * description, besides the fixed status and category.
   */
  lemma CalendarForReadBack(e: EventData, company: string, escape: string -> string)
    ensures var props := CalendarFor(e, company, escape).events[0].properties;
      && Lookup(props, Organizer) == Some(e.organizer)
      && Lookup(props, DtStart) == Some(e.startTime)
      && Lookup(props, DtEnd) == Some(e.endTime)
      && Lookup(props, Status) == Some(Confirmed)
      && Lookup(props, Categories) == Some(TicketCategory)
      && Lookup(props, Summary) == Some(e.summary)
      && Lookup(props, Description) == Some(escape(e.description))
  {
    var props := EventProperties(e, escape);
    LookupFirst(props, 0);
    LookupFirst(props, 1);
    LookupFirst(props, 2);
    LookupFirst(props, 3);
    LookupFirst(props, 4);
    LookupFirst(props, 5);
    LookupFirst(props, 6);
  }

  /** The `ics` crate's Event: a UID, a DTSTAMP and a growing property list. */
  class Event {
    var uid: string
    var dtstamp: string
    var properties: seq<Property>

    constructor (uid: string, dtstamp: string)
      ensures this.uid == uid && this.dtstamp == dtstamp && properties == []
    {
      this.uid := uid;
      this.dtstamp := dtstamp;
      properties := [];
    }

    /** Appends one property after those already pushed. */
    method Push(p: Property)
      modifies this
      ensures uid == old(uid) && dtstamp == old(dtstamp)
      ensures properties == old(properties) + [p]
    {
      properties := properties + [p];
    }

    function Value(): VEvent
      reads this
    {
      VEvent(uid, dtstamp, properties)
    }
  }

  /** The `ics` crate's ICalendar: VERSION, PRODID and the events added. */
  class ICalendar {
    var version: string
    var prodid: string
    var events: seq<VEvent>

    constructor (version: string, prodid: string)
      ensures this.version == version && this.prodid == prodid && events == []
    {
      this.version := version;
      this.prodid := prodid;
      events := [];
    }

    /** Adds the event as it stands now, after those already added. */
    method AddEvent(event: Event)
      modifies this
      ensures version == old(version) && prodid == old(prodid)
      ensures events == old(events) + [event.Value()]
    {
      events := events + [event.Value()];
    }

    function Value(): Calendar
      reads this
    {
      Calendar(version, prodid, events)
    }
  }

  /**
   * The building part of `create_calendar_event`: a fresh calendar, one
   * event with UID and DTSTAMP from the row, seven pushes, one add_event.
   */
  method BuildCalendar(e: EventData, company: string, escape: string -> string) returns (doc: Calendar)
    ensures doc == CalendarFor(e, company, escape)
  {
    var calendar := new ICalendar(Version, ProdId(company));
    var event := new Event(e.guid, e.startTime);
    event.Push(Property(Organizer, e.organizer));
    event.Push(Property(DtStart, e.startTime));
    event.Push(Property(DtEnd, e.endTime));
    event.Push(Property(Status, Confirmed));
    event.Push(Property(Categories, TicketCategory));
    event.Push(Property(Summary, e.summary));
    event.Push(Property(Description, escape(e.description)));
    assert event.properties == EventProperties(e, escape);
    calendar.AddEvent(event);
    doc := calendar.Value();
  }
}
