/**
 Event records of the intent engine and the event reader's skip policy.
 */
module Events {

  datatype Option<T> = None | Some(value: T) {
    /** The value, or `default` when absent (Python's `dict.get(key, default)`). */
    function GetOr(default: T): (r: T)
      ensures Some? ==> r == value
      ensures None? ==> r == default
    {
      match this
      case Some(v) => v
      case None => default
    }
  }

  /** The known event types. The vocabulary is open: any other string is carried through. */
  const PageView: string := "page_view"
  const ProductView: string := "product_view"
  const AddToCart: string := "add_to_cart"
  const EmailOpened: string := "email_opened"
  const EmailClicked: string := "email_clicked"
  const ReviewPosted: string := "review_posted"
  const Purchase: string := "purchase"

  /** The sentinel used for a record's missing customer id or event type. */
  const Unknown: string := "unknown"

  /** One raw event record; a field the record lacks is `None`. */
  datatype Event = Event(customerId: Option<string>, eventType: Option<string>)

  /** `e.get("customer_id", "unknown")` */
  function CustomerOf(e: Event): (c: string)
    ensures e.customerId.None? ==> c == Unknown
    ensures e.customerId.Some? ==> c == e.customerId.value
  {
    e.customerId.GetOr(Unknown)
  }

  /** `e.get("event_type", "unknown")` */
  function TypeOf(e: Event): (t: string)
    ensures e.eventType.None? ==> t == Unknown
    ensures e.eventType.Some? ==> t == e.eventType.value
  {
    e.eventType.GetOr(Unknown)
  }

  /**
   What the reader makes of one line of the event file: a line blank after
   stripping, a line that is not valid JSON, or a parsed record.
   */
  datatype Line = Blank | Malformed | Parsed(record: Event)

  /** The parsed records of `lines`, in file order; blank and malformed lines are skipped. */
  function ParsedEvents(lines: seq<Line>): (r: seq<Event>)
    ensures |r| <= |lines|
    ensures forall e :: e in r <==> Parsed(e) in lines
  {
    if lines == [] then []
    else
      var rest := ParsedEvents(lines[..|lines| - 1]);
      match lines[|lines| - 1]
      case Parsed(e) => rest + [e]
      case _ => rest
  }

  /** Skipping distributes over concatenation: records keep their relative file order. */
  lemma {:induction false} ParsedEventsAppend(a: seq<Line>, b: seq<Line>)
    ensures ParsedEvents(a + b) == ParsedEvents(a) + ParsedEvents(b)
    decreases |b|
  {
    if b == [] {
      assert a + b == a;
    } else {
      var b' := b[..|b| - 1];
      assert (a + b)[..|a + b| - 1] == a + b';
      ParsedEventsAppend(a, b');
    }
  }

  /** A missing event file reads as no events at all. */
  function LoadedEvents(source: Option<seq<Line>>): seq<Event>
  {
    match source
    case None => []
    case Some(lines) => ParsedEvents(lines)
  }

  /**
   `load_events`: `source` is `None` when the event file does not exist, and
   otherwise the outcome of parsing each of its lines.
   */
  method LoadEvents(source: Option<seq<Line>>) returns (events: seq<Event>)
    ensures events == LoadedEvents(source)
    ensures source.None? ==> events == []
    ensures source.Some? ==> events == ParsedEvents(source.value)
    ensures forall e :: e in events <==> source.Some? && Parsed(e) in source.value
  {
    events := [];
    if source.None? {
      return;
    }
    var lines := source.value;
    for i := 0 to |lines|
      invariant events == ParsedEvents(lines[..i])
    {
      assert lines[..i + 1][..i] == lines[..i];
      match lines[i]
      case Blank =>
      case Malformed =>
      case Parsed(e) =>
        events := events + [e];
    }
    assert lines[..|lines|] == lines;
  }
}
