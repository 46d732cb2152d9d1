/** Domain events and the descriptors that carry them across replicas. */
module Events {
  import opened Wrappers

  /** What a descriptor field may hold; Null marks an id that was never flushed. */
  datatype Value = Null | Number(n: int) | Text(text: string)

  type Descriptor = map<string, Value>

  datatype Kind =
    | ExerciseStateChanged | InjectReleased | InjectUpdated | InjectCommentCreated | ResponseSubmitted
    | CommunicationCreated | ResponseAssessed | InjectSuggested | SummaryGenerated

  /** An event names its rows by id; it never carries them. */
  datatype Event = Event(kind: Kind, fields: map<string, Value>)

  function EventName(kind: Kind): string {
    match kind
    case ExerciseStateChanged => "exercise_state_changed"
    case InjectReleased => "inject_released"
    case InjectUpdated => "inject_updated"
    case InjectCommentCreated => "inject_comment_created"
    case ResponseSubmitted => "response_submitted"
    case CommunicationCreated => "communication_created"
    case ResponseAssessed => "response_assessed"
    case InjectSuggested => "inject_suggested"
    case SummaryGenerated => "summary_generated"
  }

  function FieldNames(kind: Kind): set<string> {
    match kind
    case ExerciseStateChanged => {"exercise_id", "transition_id", "action"}
    case InjectReleased => {"exercise_id", "inject_id"}
    case InjectUpdated => {"exercise_id", "inject_id"}
    case InjectCommentCreated => {"exercise_id", "comment_id"}
    case ResponseSubmitted => {"exercise_id", "response_id"}
    case CommunicationCreated => {"exercise_id", "communication_id"}
    case ResponseAssessed => {"exercise_id", "response_id", "assessment_id"}
    case InjectSuggested => {"exercise_id", "suggested_id"}
    case SummaryGenerated => {"exercise_id", "summary_id"}
  }

  const KINDS := [
    ExerciseStateChanged, InjectReleased, InjectUpdated, InjectCommentCreated, ResponseSubmitted,
    CommunicationCreated, ResponseAssessed, InjectSuggested, SummaryGenerated]

  /** The first of the known kinds with that wire name. */
  function KindNamed(kinds: seq<Kind>, name: string): Option<Kind> {
    if kinds == [] then None
    else if EventName(kinds[0]) == name then Some(kinds[0])
    else KindNamed(kinds[1..], name)
  }

  /** An instance of the event's class: exactly the class's fields. */
  predicate IsInstance(ev: Event) {
    ev.fields.Keys == FieldNames(ev.kind)
  }

  /** Every id has been flushed. */
  predicate Flushed(ev: Event) {
    forall f | f in ev.fields :: ev.fields[f] != Null
  }

  function Envelope(origin: string, fields: Descriptor): Descriptor {
    map["v" := Number(1), "origin" := Text(origin)] + fields
  }

  function ToDescriptor(origin: string, ev: Event): Descriptor {
    Envelope(origin, map["event" := Text(EventName(ev.kind))] + ev.fields)
  }

  function IsOwn(d: Descriptor, origin: string): bool {
    "origin" in d && d["origin"] == Text(origin)
  }

  /** What a receiver makes of a parsed payload: only version 1 is understood. */
  function Decode(d: Descriptor): Option<Descriptor> {
    if "v" in d && d["v"] == Number(1) then Some(d) else None
  }

  function FromDescriptor(d: Descriptor): Option<Event> {
    if "event" !in d || !d["event"].Text? then None
    else
      match KindNamed(KINDS, d["event"].text)
      case None => None
      case Some(kind) =>
        if FieldNames(kind) <= d.Keys then Some(Event(kind, map f | f in FieldNames(kind) :: d[f])) else None
  }

  // ── Round trips ───────────────────────────────────────────────────────────

  /** No two event classes share a wire name. */
  lemma WireNamesAreUnique(a: Kind, b: Kind)
    requires EventName(a) == EventName(b)
    ensures a == b
  {
  }

  lemma {:induction false} KindNamedFindsKind(kinds: seq<Kind>, kind: Kind)
    requires kind in kinds
    ensures KindNamed(kinds, EventName(kind)) == Some(kind)
  {
    if EventName(kinds[0]) == EventName(kind) {
      WireNamesAreUnique(kinds[0], kind);
    } else {
      KindNamedFindsKind(kinds[1..], kind);
    }
  }

  lemma {:induction false} KindNamedIsNamed(kinds: seq<Kind>, name: string)
    requires KindNamed(kinds, name).Some?
    ensures EventName(KindNamed(kinds, name).value) == name
  {
    if EventName(kinds[0]) != name { KindNamedIsNamed(kinds[1..], name); }
  }

  lemma KindIsListed(kind: Kind)
    ensures kind in KINDS
  {
    match kind
    case ExerciseStateChanged => assert KINDS[0] == kind;
    case InjectReleased => assert KINDS[1] == kind;
    case InjectUpdated => assert KINDS[2] == kind;
    case InjectCommentCreated => assert KINDS[3] == kind;
    case ResponseSubmitted => assert KINDS[4] == kind;
    case CommunicationCreated => assert KINDS[5] == kind;
    case ResponseAssessed => assert KINDS[6] == kind;
    case InjectSuggested => assert KINDS[7] == kind;
    case SummaryGenerated => assert KINDS[8] == kind;
  }

  lemma FieldsAvoidEnvelope(kind: Kind)
    ensures "v" !in FieldNames(kind) && "origin" !in FieldNames(kind) && "event" !in FieldNames(kind)
  {
    assert |"exercise_id"| == 11 && |"transition_id"| == 13 && |"action"| == 6 && |"inject_id"| == 9;
    assert |"event"| == 5 && |"origin"| == 6 && |"v"| == 1;
    assert "action"[0] != "origin"[0];
  }

  /** A peer rebuilds exactly the event that was recorded, and knows whose it is. */
  lemma DescriptorRoundTrip(origin: string, ev: Event, receiver: string)
    requires IsInstance(ev)
    ensures Decode(ToDescriptor(origin, ev)) == Some(ToDescriptor(origin, ev))
    ensures FromDescriptor(ToDescriptor(origin, ev)) == Some(ev)
    ensures IsOwn(ToDescriptor(origin, ev), receiver) <==> receiver == origin
  {
    var d := ToDescriptor(origin, ev);
    FieldsAvoidEnvelope(ev.kind);
    KindIsListed(ev.kind);
    KindNamedFindsKind(KINDS, ev.kind);
    assert d["event"] == Text(EventName(ev.kind));
    assert (map f | f in FieldNames(ev.kind) :: d[f]) == ev.fields;
  }

  /** Whatever arrives, an event is projected only if it names a known class and brings its fields. */
  lemma OnlyKnownEventsAreRebuilt(d: Descriptor)
    requires FromDescriptor(d).Some?
    ensures var ev := FromDescriptor(d).value;
            && IsInstance(ev) && d["event"] == Text(EventName(ev.kind))
            && forall f | f in ev.fields :: f in d && d[f] == ev.fields[f]
  {
    KindNamedIsNamed(KINDS, d["event"].text);
  }
}
