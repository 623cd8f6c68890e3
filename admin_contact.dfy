/**
 * The temporary admin viewer: loads both stored lists once, shows one per
 * tab and can delete the list of the tab on screen.
 */
module Admin {
  import opened Wrappers
  import opened BrowserStorage
  import opened ContactValidators

  datatype Tab = MeetingsTab | MessagesTab

  /** The lists after the load effect's `try` block, given the lists before
      it and the two stored texts. A key that is absent or empty leaves its
      list as it was, a stored array replaces it, and a malformed text throws:
      the meetings text is parsed first, so when it throws the messages are
      not read either. */
  function AfterLoad(meetings: seq<Entry>, messages: seq<Entry>,
                     storedMeetings: Option<Blob<Entry>>, storedMessages: Option<Blob<Entry>>)
    : (r: (seq<Entry>, seq<Entry>))
    ensures ReadIfPresent(storedMeetings).Parsed? ==> r.0 == storedMeetings.value.items
    ensures !ReadIfPresent(storedMeetings).Parsed? ==> r.0 == meetings
    ensures ReadIfPresent(storedMeetings).Threw? ==> r.1 == messages
    ensures !ReadIfPresent(storedMeetings).Threw? && ReadIfPresent(storedMessages).Parsed? ==>
      r.1 == storedMessages.value.items
    ensures !ReadIfPresent(storedMessages).Parsed? ==> r.1 == messages
  {
    match ReadIfPresent(storedMeetings)
    case Threw => (meetings, messages)
    case Skipped => (meetings, LoadedOr(messages, storedMessages))
    case Parsed(items) => (items, LoadedOr(messages, storedMessages))
  }

  function LoadedOr(current: seq<Entry>, stored: Option<Blob<Entry>>): seq<Entry> {
    if ReadIfPresent(stored).Parsed? then ReadIfPresent(stored).items else current
  }

  /** `formatDate`: the submission time rendered by `renderPPPp` (the
      date-fns `format(parseISO(s), "PPP p")`, `None` where it throws), or
      the text itself when rendering fails. */
  function FormatDate(dateString: string, renderPPPp: string -> Option<string>): (r: string)
    ensures renderPPPp(dateString).None? ==> r == dateString
    ensures renderPPPp(dateString).Some? ==> r == renderPPPp(dateString).value
  {
    match renderPPPp(dateString)
    case None => dateString
    case Some(text) => text
  }

  /** What the viewer shows after storing an entry: the stored list plus
      that entry at the end. A malformed messages text cannot hide the
      meetings, which are read first. */
  lemma ViewerSeesStoredMeeting(items: map<string, Blob<Entry>>, e: Entry)
    requires Get(items, MeetingsKey) != Some(Malformed)
    ensures AppendEntry(items, MeetingsKey, e).Ok?
    ensures var after := AppendEntry(items, MeetingsKey, e).value;
      AfterLoad([], [], Get(after, MeetingsKey), Get(after, MessagesKey)).0
        == ParseListOrEmpty(Get(items, MeetingsKey)).value + [e]
  {
  }

  /** The messages list is shown in full unless the meetings text is malformed. */
  lemma ViewerSeesStoredMessage(items: map<string, Blob<Entry>>, e: Entry)
    requires Get(items, MessagesKey) != Some(Malformed)
    ensures AppendEntry(items, MessagesKey, e).Ok?
    ensures var after := AppendEntry(items, MessagesKey, e).value;
      var shown := AfterLoad([], [], Get(after, MeetingsKey), Get(after, MessagesKey)).1;
      && (Get(items, MeetingsKey) != Some(Malformed) ==>
            shown == ParseListOrEmpty(Get(items, MessagesKey)).value + [e])
      && (Get(items, MeetingsKey) == Some(Malformed) ==> shown == [])
  {
  }

  /** A deleted key reads as the empty list both ways the site reads it,
      and the other key reads as before. */
  lemma ClearedKeyReadsEmpty(items: map<string, Blob<Entry>>, key: string, other: string)
    requires other != key
    ensures ParseListOrEmpty(Get(items - {key}, key)) == Ok([])
    ensures ReadIfPresent(Get(items - {key}, key)) == Skipped
    ensures Get(items - {key}, other) == Get(items, other)
  {
  }

  /** `AdminContactPage` */
  class AdminContactPage {
    var meetings: seq<Entry>
    var messages: seq<Entry>
    var activeTab: Tab

    /** Both lists start empty, on the meetings tab. */
    constructor ()
      ensures meetings == [] && messages == [] && activeTab == MeetingsTab
    {
      meetings, messages := [], [];
      activeTab := MeetingsTab;
    }

    /** The tabs' `onValueChange`. */
    method SetActiveTab(tab: Tab)
      modifies this
      ensures activeTab == tab && meetings == old(meetings) && messages == old(messages)
    {
      activeTab := tab;
    }

    /** The load effect, run once after mounting. A parse error is caught
        and logged, leaving what was not yet set as it was. */
    method Load(storage: LocalStorage<Entry>)
      modifies this
      ensures (meetings, messages)
           == AfterLoad(old(meetings), old(messages), Get(storage.items, MeetingsKey), Get(storage.items, MessagesKey))
      ensures activeTab == old(activeTab)
    {
      var storedMeetings := storage.GetItem(MeetingsKey);
      var storedMessages := storage.GetItem(MessagesKey);
      var readMeetings := ReadIfPresent(storedMeetings);
      if readMeetings.Threw? {
        return;
      }
      if readMeetings.Parsed? {
        meetings := readMeetings.items;
      }
      var readMessages := ReadIfPresent(storedMessages);
      if readMessages.Threw? {
        return;
      }
      if readMessages.Parsed? {
        messages := readMessages.items;
      }
    }

    /** `clearData`: after confirmation, deletes the key of the tab on
        screen and empties that list; the other key and list are untouched,
        and without confirmation nothing changes. */
    method ClearData(storage: LocalStorage<Entry>, confirmed: bool)
      modifies this, storage
      ensures activeTab == old(activeTab)
      ensures !confirmed ==>
        meetings == old(meetings) && messages == old(messages) && storage.items == old(storage.items)
      ensures confirmed && activeTab == MeetingsTab ==>
        storage.items == old(storage.items) - {MeetingsKey} && meetings == [] && messages == old(messages)
      ensures confirmed && activeTab == MessagesTab ==>
        storage.items == old(storage.items) - {MessagesKey} && messages == [] && meetings == old(meetings)
    {
      if confirmed {
        if activeTab == MeetingsTab {
          storage.RemoveItem(MeetingsKey);
          meetings := [];
        } else {
          storage.RemoveItem(MessagesKey);
          messages := [];
        }
      }
    }
  }
}
