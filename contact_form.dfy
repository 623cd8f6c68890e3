/**
 * The validation schemas of the contact and meeting forms and the two
 * functions that append a submitted record to a list kept in localStorage.
 */
module ContactValidators {
  import opened Wrappers
  import opened BrowserStorage

  /** The fields of the contact form. `company` may be left out. */
  datatype ContactFormValues = ContactFormValues(
    name: string,
    email: string,
    company: Option<string>,
    subject: string,
    message: string)

  /** The meeting form: the contact fields extended with a date and a time slot. */
  datatype MeetingFormValues = MeetingFormValues(
    contact: ContactFormValues,
    date: string,
    timeSlot: string)

  /** A stored record: the submitted fields spread into one object with a
      `submittedAt` timestamp added. */
  datatype Entry =
    | ContactMessage(values: ContactFormValues, submittedAt: string)
    | MeetingRequest(meeting: MeetingFormValues, submittedAt: string)

  const MeetingsKey: string := "scheduledMeetings"
  const MessagesKey: string := "contactMessages"

  // ---------------------------------------------------------------------
  // String length as JavaScript counts it

  /** JavaScript's `s.length`: the number of UTF-16 code units, so a
      character outside the Basic Multilingual Plane counts twice. */
  function JsLength(s: string): (n: nat)
    ensures |s| <= n <= 2 * |s|
    ensures n == 0 <==> s == []
  {
    if s == [] then 0
    else (if s[0] as int >= 0x1_0000 then 2 else 1) + JsLength(s[1..])
  }

  predicate InBmp(s: string) {
    forall i :: 0 <= i < |s| ==> s[i] as int < 0x1_0000
  }

  /** On text made of Basic Multilingual Plane characters only, JavaScript's
      length is the number of characters. */
  lemma {:induction false} JsLengthInBmp(s: string)
    requires InBmp(s)
    ensures JsLength(s) == |s|
  {
    if s != [] {
      assert InBmp(s[1..]) by {
        forall i | 0 <= i < |s[1..]| ensures s[1..][i] as int < 0x1_0000 {
          assert s[1..][i] == s[i + 1];
        }
      }
      JsLengthInBmp(s[1..]);
    }
  }

  /** `z.string().min(n)` */
  predicate MinLength(s: string, n: nat) {
    JsLength(s) >= n
  }

  /** Any character outside the Basic Multilingual Plane (an emoji, say)
      is two UTF-16 code units, so a one-character name made of it passes
      the two-character minimum. */
  lemma AstralCharacterIsLongEnough(c: char)
    requires c as int >= 0x1_0000
    ensures |[c]| == 1 && MinLength([c], 2)
  {
    assert [c][1..] == [];
  }

  // ---------------------------------------------------------------------
  // Schemas

  /** `ContactFormSchema`. The email grammar belongs to the validation
      library and is a parameter here. `company` is not constrained. */
  predicate ContactFormSchema(v: ContactFormValues, isEmail: string -> bool) {
    && MinLength(v.name, 2)
    && isEmail(v.email)
    && MinLength(v.subject, 2)
    && MinLength(v.message, 10)
  }

  /** `MeetingFormSchema`: the contact schema extended with `date` and
      `timeSlot`, each at least one character long. */
  predicate MeetingFormSchema(v: MeetingFormValues, isEmail: string -> bool) {
    && ContactFormSchema(v.contact, isEmail)
    && MinLength(v.date, 1)
    && MinLength(v.timeSlot, 1)
  }

  /** In characters: a valid record has a valid email, a name and a subject
      of at least one character and a message of at least five; two, two and
      ten characters with a valid email always suffice. */
  lemma ContactSchemaBounds(v: ContactFormValues, isEmail: string -> bool)
    ensures ContactFormSchema(v, isEmail) ==>
      isEmail(v.email) && |v.name| >= 1 && |v.subject| >= 1 && |v.message| >= 5
    ensures isEmail(v.email) && |v.name| >= 2 && |v.subject| >= 2 && |v.message| >= 10 ==>
      ContactFormSchema(v, isEmail)
  {
  }

  /** For text without astral characters the schema is exactly the
      character-count rule: name >= 2, subject >= 2, message >= 10. */
  lemma ContactSchemaInBmp(v: ContactFormValues, isEmail: string -> bool)
    requires InBmp(v.name) && InBmp(v.subject) && InBmp(v.message)
    ensures ContactFormSchema(v, isEmail) <==>
      isEmail(v.email) && |v.name| >= 2 && |v.subject| >= 2 && |v.message| >= 10
  {
    JsLengthInBmp(v.name);
    JsLengthInBmp(v.subject);
    JsLengthInBmp(v.message);
  }

  /** The optional company field never affects validity. */
  lemma CompanyIsUnconstrained(v: ContactFormValues, company: Option<string>, isEmail: string -> bool)
    ensures ContactFormSchema(v.(company := company), isEmail) == ContactFormSchema(v, isEmail)
  {
  }

  /** A meeting record is valid iff its contact fields are valid and its
      date and time slot are non-empty. */
  lemma MeetingSchemaIff(v: MeetingFormValues, isEmail: string -> bool)
    ensures MeetingFormSchema(v, isEmail) <==>
      ContactFormSchema(v.contact, isEmail) && v.date != [] && v.timeSlot != []
  {
  }

  // ---------------------------------------------------------------------
  // Append-only persistence

  /** The store after `JSON.parse(getItem(key) || "[]")`, spreading the
      list with one more entry and `setItem(key, ...)`; the parse error when
      the stored text is malformed (the store functions do not catch it). */
  function AppendEntry(items: map<string, Blob<Entry>>, key: string, e: Entry): (r: Result<map<string, Blob<Entry>>, ParseError>)
    ensures r.Err? <==> Get(items, key) == Some(Malformed)
    ensures r.Ok? ==>
      var prev := ParseListOrEmpty(Get(items, key)).value;
      && key in r.value && r.value[key].JsonArray?
      && |r.value[key].items| == |prev| + 1
      && r.value[key].items[..|prev|] == prev
      && r.value[key].items[|prev|] == e
    ensures r.Ok? ==> r.value.Keys == items.Keys + {key} && r.value - {key} == items - {key}
  {
    match ParseListOrEmpty(Get(items, key))
    case Err(err) => Err(err)
    case Ok(prev) => Ok(items[key := JsonArray(prev + [e])])
  }

  /** The first entry stored under a missing key makes a one-element list. */
  lemma FirstStoreIsSingleton(items: map<string, Blob<Entry>>, key: string, e: Entry)
    requires key !in items
    ensures AppendEntry(items, key, e) == Ok(items[key := JsonArray([e])])
  {
  }

  /** Several submissions in a row, as a specification of their combined effect. */
  function AppendAll(items: map<string, Blob<Entry>>, key: string, es: seq<Entry>): Result<map<string, Blob<Entry>>, ParseError>
    decreases |es|
  {
    if es == [] then Ok(items)
    else match AppendEntry(items, key, es[0])
      case Err(err) => Err(err)
      case Ok(next) => AppendAll(next, key, es[1..])
  }

  /** Appending entries one at a time keeps every earlier entry in order and
      puts the new ones after them, and leaves every other key alone. */
  lemma {:induction false} AppendsAccumulate(items: map<string, Blob<Entry>>, key: string, es: seq<Entry>)
    requires Get(items, key) != Some(Malformed)
    ensures AppendAll(items, key, es).Ok?
    ensures ParseListOrEmpty(Get(AppendAll(items, key, es).value, key))
         == Ok(ParseListOrEmpty(Get(items, key)).value + es)
    ensures AppendAll(items, key, es).value - {key} == items - {key}
    decreases |es|
  {
    var prev := ParseListOrEmpty(Get(items, key)).value;
    if es == [] {
      assert prev + es == prev;
    } else {
      var next := AppendEntry(items, key, es[0]).value;
      assert next[key].items == prev + [es[0]];
      AppendsAccumulate(next, key, es[1..]);
      assert prev + [es[0]] + es[1..] == prev + es;
    }
  }

  /** A message and a meeting stored in either order give the same store. */
  lemma StoresCommute(items: map<string, Blob<Entry>>, message: Entry, meeting: Entry)
    requires Get(items, MessagesKey) != Some(Malformed) && Get(items, MeetingsKey) != Some(Malformed)
    ensures AppendEntry(items, MessagesKey, message).Ok?
    ensures AppendEntry(items, MeetingsKey, meeting).Ok?
    ensures AppendEntry(AppendEntry(items, MessagesKey, message).value, MeetingsKey, meeting)
         == AppendEntry(AppendEntry(items, MeetingsKey, meeting).value, MessagesKey, message)
  {
    assert MessagesKey != MeetingsKey by { assert MessagesKey[0] != MeetingsKey[0]; }
    var messages := JsonArray(ParseListOrEmpty(Get(items, MessagesKey)).value + [message]);
    var meetings := JsonArray(ParseListOrEmpty(Get(items, MeetingsKey)).value + [meeting]);
    assert AppendEntry(items[MessagesKey := messages], MeetingsKey, meeting)
        == Ok(items[MessagesKey := messages][MeetingsKey := meetings]);
    assert AppendEntry(items[MeetingsKey := meetings], MessagesKey, message)
        == Ok(items[MeetingsKey := meetings][MessagesKey := messages]);
    assert items[MessagesKey := messages][MeetingsKey := meetings]
        == items[MeetingsKey := meetings][MessagesKey := messages];
  }

  /** The shared body of the two store functions. */
  method AppendRecord(storage: LocalStorage<Entry>, key: string, e: Entry) returns (r: Result<(), ParseError>)
    modifies storage
    ensures match AppendEntry(old(storage.items), key, e)
      case Ok(after) => r.Ok? && storage.items == after
      case Err(err) => r == Err(err) && storage.items == old(storage.items)
  {
    var stored := storage.GetItem(key);
    var existing := ParseListOrEmpty(stored);
    if existing.Err? {
      return Err(existing.error);
    }
    storage.SetItem(key, JsonArray(existing.value + [e]));
    r := Ok(());
  }

  /** `storeMeetingData`: appends the meeting stamped with `submittedAt`
      (the caller's `new Date().toISOString()`) to "scheduledMeetings". */
  method StoreMeetingData(storage: LocalStorage<Entry>, data: MeetingFormValues, submittedAt: string) returns (r: Result<(), ParseError>)
    modifies storage
    ensures match AppendEntry(old(storage.items), MeetingsKey, MeetingRequest(data, submittedAt))
      case Ok(after) => r.Ok? && storage.items == after
      case Err(err) => r == Err(err) && storage.items == old(storage.items)
    ensures Get(storage.items, MessagesKey) == Get(old(storage.items), MessagesKey)
  {
    r := AppendRecord(storage, MeetingsKey, MeetingRequest(data, submittedAt));
  }

  /** `storeContactData`: appends the message stamped with `submittedAt`
      to "contactMessages". */
  method StoreContactData(storage: LocalStorage<Entry>, data: ContactFormValues, submittedAt: string) returns (r: Result<(), ParseError>)
    modifies storage
    ensures match AppendEntry(old(storage.items), MessagesKey, ContactMessage(data, submittedAt))
      case Ok(after) => r.Ok? && storage.items == after
      case Err(err) => r == Err(err) && storage.items == old(storage.items)
    ensures Get(storage.items, MeetingsKey) == Get(old(storage.items), MeetingsKey)
  {
    r := AppendRecord(storage, MessagesKey, ContactMessage(data, submittedAt));
  }
}
