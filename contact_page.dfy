/**
 * The contact page: a meeting-scheduling wizard (details -> calendar ->
 * success) beside a one-step message form, both writing to localStorage.
 */
module Contact {
  import opened Wrappers
  import opened BrowserStorage
  import opened ContactValidators

  datatype Step = Details | Calendar | Success

  datatype FormType = Meeting | Message

  /** What the success screen shows of a booked meeting. */
  datatype SuccessData = SuccessData(date: Option<string>, timeSlot: Option<string>)

  /** A calendar date, as a count of days since 1970-01-01 in the visitor's
      time zone. The calendar hands out dates at local midnight, so comparing
      them with today's midnight compares these numbers. */
  type Day = int

  // ---------------------------------------------------------------------
  // Which dates can be picked

  /** `Date.getDay()`: 0 is Sunday, 6 is Saturday; 1970-01-01 was a Thursday. */
  function Weekday(d: Day): (w: int)
    ensures 0 <= w < 7
    ensures d == 0 ==> w == 4
  {
    (d + 4) % 7
  }

  lemma WeekdayNext(d: Day)
    ensures Weekday(d + 1) == (Weekday(d) + 1) % 7
  {
  }

  /** The calendar's `disabled` callback: past dates and weekends. */
  predicate Disabled(d: Day, today: Day) {
    d < today || Weekday(d) == 0 || Weekday(d) == 6
  }

  /** From any date on or after today, a selectable date is at most two days away. */
  lemma SelectableWithinThreeDays(d: Day, today: Day)
    requires d >= today
    ensures exists e :: d <= e < d + 3 && !Disabled(e, today)
  {
    WeekdayNext(d);
    WeekdayNext(d + 1);
    if Weekday(d) == 6 {
      assert !Disabled(d + 2, today);
    } else if Weekday(d) == 0 {
      assert !Disabled(d + 1, today);
    } else {
      assert !Disabled(d, today);
    }
  }

  /** A date is selectable exactly when it is today or later and falls on
      Monday to Friday; selectability repeats weekly once past today. */
  lemma DisabledWeekly(d: Day, today: Day)
    requires d >= today
    ensures !Disabled(d, today) <==> 1 <= Weekday(d) <= 5
    ensures Disabled(d + 7, today) == Disabled(d, today)
  {
  }

  /** On a Saturday or a Sunday, the date the page preselects (today) is one
      the calendar itself refuses. */
  lemma WeekendTodayIsDisabled(today: Day)
    requires Weekday(today) == 0 || Weekday(today) == 6
    ensures Disabled(today, today)
  {
  }

  // ---------------------------------------------------------------------
  // Time slots

  const AvailableTimeSlots: seq<string> := [
    "9:00 AM", "9:30 AM", "10:00 AM", "10:30 AM",
    "11:00 AM", "11:30 AM", "1:00 PM", "1:30 PM",
    "2:00 PM", "2:30 PM", "3:00 PM", "3:30 PM",
    "4:00 PM", "4:30 PM"
  ]

  function Digit(n: nat): char
    requires n < 10
  {
    ('0' as int + n) as char
  }

  /** A twelve-hour clock label such as "9:30 AM" for a minute of the day. */
  function ClockLabel(minute: nat): (s: string)
    requires minute < 24 * 60
  {
    var h, m := minute / 60, minute % 60;
    var h12 := if h % 12 == 0 then 12 else h % 12;
    (if h12 < 10 then [Digit(h12)] else [Digit(h12 / 10), Digit(h12 % 10)])
    + [':', Digit(m / 10), Digit(m % 10), ' ', if h < 12 then 'A' else 'P', 'M']
  }

  /** Half-hour starts from 9:00 to 11:30 and from 13:00 to 16:30. */
  function SlotStart(i: nat): (minute: nat)
    requires i < 14
    ensures minute % 30 == 0
    ensures 9 * 60 <= minute < 12 * 60 || 13 * 60 <= minute < 17 * 60
  {
    if i < 6 then 9 * 60 + 30 * i else 13 * 60 + 30 * (i - 6)
  }

  lemma EarlyMorningLabels()
    ensures ClockLabel(540) == "9:00 AM" && ClockLabel(570) == "9:30 AM"
    ensures ClockLabel(600) == "10:00 AM"
  {
  }

  lemma LateMorningLabels()
    ensures ClockLabel(630) == "10:30 AM" && ClockLabel(660) == "11:00 AM"
    ensures ClockLabel(690) == "11:30 AM"
  {
  }

  lemma EarlyAfternoonLabels()
    ensures ClockLabel(780) == "1:00 PM" && ClockLabel(810) == "1:30 PM"
    ensures ClockLabel(840) == "2:00 PM" && ClockLabel(870) == "2:30 PM"
  {
  }

  lemma LateAfternoonLabels()
    ensures ClockLabel(900) == "3:00 PM" && ClockLabel(930) == "3:30 PM"
    ensures ClockLabel(960) == "4:00 PM" && ClockLabel(990) == "4:30 PM"
  {
  }

  /** The fixed slot list is the morning and afternoon half hours, in order. */
  lemma TimeSlotsAreHalfHours()
    ensures |AvailableTimeSlots| == 14
    ensures forall i :: 0 <= i < 14 ==> AvailableTimeSlots[i] == ClockLabel(SlotStart(i))
  {
    forall i | 0 <= i < 14
      ensures AvailableTimeSlots[i] == ClockLabel(SlotStart(i))
    {
      if i < 3 {
        EarlyMorningLabels();
      } else if i < 6 {
        LateMorningLabels();
      } else if i < 10 {
        EarlyAfternoonLabels();
      } else {
        LateAfternoonLabels();
      }
    }
  }

  /** No two slot buttons carry the same label, so the selected slot
      highlights exactly one button. */
  lemma OneButtonHighlighted(i: nat)
    requires i < |AvailableTimeSlots|
    ensures forall j :: 0 <= j < |AvailableTimeSlots| ==>
      (AvailableTimeSlots[j] == AvailableTimeSlots[i] <==> j == i)
  {
  }

  // ---------------------------------------------------------------------
  // The page's state and its handlers

  /** `defaultValues` of both forms. */
  const EmptyForm: ContactFormValues := ContactFormValues("", "", Some(""), "", "")

  const MeetingScheduled: string := "Meeting Scheduled"
  const MessageSent: string := "Message Sent"

  /** Every variable of the page at one moment. */
  datatype PageState = PageState(
    step: Step,
    formType: FormType,
    tab: FormType,
    date: Option<Day>,
    timeSlot: string,
    successData: SuccessData,
    meetingForm: ContactFormValues,
    messageForm: ContactFormValues)

  /**
   * `ContactPage`. Besides the React state it holds the values of the two
   * forms and `tab`, the tab the (uncontrolled) tab widget shows; the
   * widget is unmounted on the success screen and starts again on
   * "meeting" when it is mounted anew. Each handler's `requires` names the
   * step and tab in which its control is on screen.
   */
  class ContactPage {
    const isEmail: string -> bool  // the email grammar of the validation library
    var step: Step
    var formType: FormType
    var tab: FormType
    var date: Option<Day>
    var timeSlot: string
    var successData: SuccessData
    var meetingForm: ContactFormValues
    var messageForm: ContactFormValues

    ghost function State(): PageState
      reads this
    {
      PageState(step, formType, tab, date, timeSlot, successData, meetingForm, messageForm)
    }

    /** At most one slot is held and it is one of the offered ones; the
        calendar step is reached only with validated meeting details; the
        success screen shows a date exactly when it shows an offered slot. */
    ghost predicate Valid()
      reads this
    {
      && (timeSlot == "" || timeSlot in AvailableTimeSlots)
      && (step == Calendar ==> ContactFormSchema(meetingForm, isEmail))
      && (successData.date.Some? <==> successData.timeSlot.Some?)
      && (successData.timeSlot.Some? ==> successData.timeSlot.value in AvailableTimeSlots)
    }

    /** The tab on screen is the form type the page remembers. */
    ghost predicate Synced()
      reads this
    {
      step != Success ==> tab == formType
    }

    /** The heading of the success screen. */
    function Banner(): (s: string)
      reads this
      ensures s == MeetingScheduled <==> formType == Meeting
      ensures s == MessageSent <==> formType == Message
    {
      assert MeetingScheduled[2] != MessageSent[2];
      match formType
      case Meeting => MeetingScheduled
      case Message => MessageSent
    }

    /** The page as first rendered: the details step of the meeting form,
        today preselected, no slot and empty success data. */
    constructor (isEmail: string -> bool, today: Day)
      ensures Valid() && Synced() && this.isEmail == isEmail
      ensures State() == PageState(Details, Meeting, Meeting, Some(today), "", SuccessData(None, None), EmptyForm, EmptyForm)
    {
      this.isEmail := isEmail;
      step, formType, tab := Details, Meeting, Meeting;
      date, timeSlot := Some(today), "";
      successData := SuccessData(None, None);
      meetingForm, messageForm := EmptyForm, EmptyForm;
    }

    /** A click on a tab trigger. The tab widget calls `onTabChange` only
        when the shown tab changes; a click on the tab already shown does
        nothing, even when `formType` differs from it. */
    method OnTabChange(value: FormType)
      requires Valid() && step != Success
      modifies this
      ensures Valid() && (old(Synced()) ==> Synced())
      ensures value == old(tab) ==> State() == old(State())
      ensures value != old(tab) ==> Synced() && State() == old(State()).(formType := value, tab := value)
    {
      if value != tab {
        tab := value;
        formType := value;
      }
    }

    /** Typing into the meeting details form. */
    method EditMeetingForm(values: ContactFormValues)
      requires Valid() && step == Details && tab == Meeting
      modifies this
      ensures Valid() && (old(Synced()) ==> Synced())
      ensures State() == old(State()).(meetingForm := values)
    {
      meetingForm := values;
    }

    /** Typing into the message form. */
    method EditMessageForm(values: ContactFormValues)
      requires Valid() && step != Success && tab == Message
      modifies this
      ensures Valid() && (old(Synced()) ==> Synced())
      ensures State() == old(State()).(messageForm := values)
    {
      messageForm := values;
    }

    /** `handleSubmit(onMeetingDetailsSubmit)`: on valid details the wizard
        moves to the calendar and nothing is stored; otherwise the form shows
        its errors and nothing changes. */
    method OnMeetingDetailsSubmit()
      requires Valid() && step == Details && tab == Meeting
      modifies this
      ensures Valid() && (old(Synced()) ==> Synced())
      ensures ContactFormSchema(meetingForm, isEmail) ==> State() == old(State()).(step := Calendar)
      ensures !ContactFormSchema(meetingForm, isEmail) ==> State() == old(State())
    {
      if ContactFormSchema(meetingForm, isEmail) {
        step := Calendar;
      }
    }

    /** A click in the calendar, which calls `onSelect`. `Some(d)` is a
        click on day `d`; `None` is a click on the selected day, which clears
        it. Disabled days cannot be clicked, so neither a disabled day nor a
        disabled selected day (today, preselected on a weekend) can be
        chosen or cleared. */
    method OnSelectDate(day: Option<Day>, today: Day)
      requires Valid() && step == Calendar && tab == Meeting
      modifies this
      ensures Valid() && (old(Synced()) ==> Synced())
      ensures day.Some? && Disabled(day.value, today) ==> State() == old(State())
      ensures day.Some? && !Disabled(day.value, today) ==> State() == old(State()).(date := day)
      ensures day.None? && old(date).Some? && !Disabled(old(date).value, today) ==>
        State() == old(State()).(date := None)
      ensures day.None? && (old(date).None? || Disabled(old(date).value, today)) ==>
        State() == old(State())
    {
      match day
      case Some(d) =>
        if !Disabled(d, today) {
          date := day;
        }
      case None =>
        if date.Some? && !Disabled(date.value, today) {
          date := None;
        }
    }

    /** A slot button: its slot replaces any previous choice. */
    method SelectTimeSlot(slot: string)
      requires Valid() && step == Calendar && tab == Meeting
      requires slot in AvailableTimeSlots
      modifies this
      ensures Valid() && (old(Synced()) ==> Synced())
      ensures State() == old(State()).(timeSlot := slot)
    {
      timeSlot := slot;
    }

    /** The Back button: returns to the details step, keeping the entered
        details, the date and the slot. */
    method Back()
      requires Valid() && step == Calendar && tab == Meeting
      modifies this
      ensures Valid() && (old(Synced()) ==> Synced())
      ensures State() == old(State()).(step := Details)
    {
      step := Details;
    }

    /** `onMeetingSubmit`. Without a date or a slot it returns at once.
        Otherwise it stores one meeting built from the details, the date as
        `formatPPP` renders it and the slot, then shows the success screen
        with that date and slot. If the stored list is malformed the store
        throws and nothing after it runs. */
    method OnMeetingSubmit(storage: LocalStorage<Entry>, formatPPP: Day -> string, submittedAt: string)
      requires Valid() && step == Calendar && tab == Meeting
      modifies this, storage
      ensures Valid() && (old(Synced()) ==> Synced())
      ensures old(date).None? || old(timeSlot) == "" ==>
        State() == old(State()) && storage.items == old(storage.items)
      ensures old(date).Some? && old(timeSlot) != "" ==>
        var meeting := MeetingFormValues(old(meetingForm), formatPPP(old(date).value), old(timeSlot));
        match AppendEntry(old(storage.items), MeetingsKey, MeetingRequest(meeting, submittedAt))
        case Err(_) =>
          State() == old(State()) && storage.items == old(storage.items)
        case Ok(after) =>
          && storage.items == after
          && State() == old(State()).(
               successData := SuccessData(Some(meeting.date), Some(meeting.timeSlot)),
               step := Success)
          && (meeting.date != [] ==> MeetingFormSchema(meeting, isEmail))
      ensures Get(storage.items, MessagesKey) == Get(old(storage.items), MessagesKey)
      ensures old(Synced()) && step == Success ==> Banner() == MeetingScheduled
    {
      if date.None? || timeSlot == "" {
        return;
      }
      var formattedDate := formatPPP(date.value);
      var meetingData := MeetingFormValues(meetingForm, formattedDate, timeSlot);
      var stored := StoreMeetingData(storage, meetingData, submittedAt);
      if stored.Err? {
        return;
      }
      MeetingSchemaIff(meetingData, isEmail);
      successData := SuccessData(Some(formattedDate), Some(timeSlot));
      step := Success;
    }

    /** `handleSubmit(onMessageSubmit)`: valid values are stored as one
        contact message, the success data is cleared and the success screen
        shown; the meetings list is never touched. */
    method OnMessageSubmit(storage: LocalStorage<Entry>, submittedAt: string)
      requires Valid() && step != Success && tab == Message
      modifies this, storage
      ensures Valid() && (old(Synced()) ==> Synced())
      ensures !ContactFormSchema(old(messageForm), isEmail) ==>
        State() == old(State()) && storage.items == old(storage.items)
      ensures ContactFormSchema(old(messageForm), isEmail) ==>
        match AppendEntry(old(storage.items), MessagesKey, ContactMessage(old(messageForm), submittedAt))
        case Err(_) =>
          State() == old(State()) && storage.items == old(storage.items)
        case Ok(after) =>
          && storage.items == after
          && State() == old(State()).(successData := SuccessData(None, None), step := Success)
      ensures Get(storage.items, MeetingsKey) == Get(old(storage.items), MeetingsKey)
      ensures old(Synced()) && step == Success ==> Banner() == MessageSent
    {
      if !ContactFormSchema(messageForm, isEmail) {
        return;
      }
      var stored := StoreContactData(storage, messageForm, submittedAt);
      if stored.Err? {
        return;
      }
      successData := SuccessData(None, None);
      step := Success;
    }

    /** `resetForms`, as written: clears both forms, preselects today, clears
        the slot and returns to the details step, where the tab widget is
        mounted again on "meeting". `formType` and the success data stay. */
    method ResetForms(today: Day)
      requires Valid() && step == Success
      modifies this
      ensures Valid()
      ensures State() == old(State()).(
        meetingForm := EmptyForm, messageForm := EmptyForm,
        date := Some(today), timeSlot := "", step := Details, tab := Meeting)
      ensures Synced() <==> old(formType) == Meeting
    {
      meetingForm, messageForm := EmptyForm, EmptyForm;
      date := Some(today);
      timeSlot := "";
      step := Details;
      tab := Meeting;
    }

    /** `resetForms` with the form type returned to "meeting" together with
        the tab widget, so the page and the screen agree again. */
    method ResetFormsCorrected(today: Day)
      requires Valid() && step == Success
      modifies this
      ensures Valid() && Synced()
      ensures State() == old(State()).(
        meetingForm := EmptyForm, messageForm := EmptyForm,
        date := Some(today), timeSlot := "", step := Details,
        tab := Meeting, formType := Meeting)
    {
      meetingForm, messageForm := EmptyForm, EmptyForm;
      date := Some(today);
      timeSlot := "";
      step := Details;
      tab := Meeting;
      formType := Meeting;
    }
  }

  /**
   * A visitor sends a message, presses "Send Another Message" and then
   * books a meeting. With `resetForms` as written the meeting is stored,
   * yet the success screen says "Message Sent".
   */
  method MeetingAfterMessage(
    storage: LocalStorage<Entry>, isEmail: string -> bool, today: Day,
    formatPPP: Day -> string, message: ContactFormValues, details: ContactFormValues)
    returns (page: ContactPage)
    requires ContactFormSchema(message, isEmail) && ContactFormSchema(details, isEmail)
    requires Get(storage.items, MessagesKey) != Some(Malformed)
    requires Get(storage.items, MeetingsKey) != Some(Malformed)
    modifies storage
    ensures page.step == Success && page.successData.timeSlot == Some("10:00 AM")
    ensures page.Banner() == MessageSent
  {
    page := new ContactPage(isEmail, today);
    page.OnTabChange(Message);
    page.EditMessageForm(message);
    page.OnMessageSubmit(storage, "t1");
    page.ResetForms(today);
    page.EditMeetingForm(details);
    page.OnMeetingDetailsSubmit();
    page.SelectTimeSlot("10:00 AM");
    page.OnMeetingSubmit(storage, formatPPP, "t2");
  }

  /** The same visit with the corrected reset ends on "Meeting Scheduled". */
  method MeetingAfterMessageCorrected(
    storage: LocalStorage<Entry>, isEmail: string -> bool, today: Day,
    formatPPP: Day -> string, message: ContactFormValues, details: ContactFormValues)
    returns (page: ContactPage)
    requires ContactFormSchema(message, isEmail) && ContactFormSchema(details, isEmail)
    requires Get(storage.items, MessagesKey) != Some(Malformed)
    requires Get(storage.items, MeetingsKey) != Some(Malformed)
    modifies storage
    ensures page.step == Success && page.successData.timeSlot == Some("10:00 AM")
    ensures page.Banner() == MeetingScheduled
  {
    page := new ContactPage(isEmail, today);
    page.OnTabChange(Message);
    page.EditMessageForm(message);
    page.OnMessageSubmit(storage, "t1");
    page.ResetFormsCorrected(today);
    page.EditMeetingForm(details);
    page.OnMeetingDetailsSubmit();
    page.SelectTimeSlot("10:00 AM");
    page.OnMeetingSubmit(storage, formatPPP, "t2");
  }

  /**
   * A visitor opens the page on a Saturday or a Sunday, enters valid
   * details and picks a slot without touching the calendar. The page books
   * the preselected date, today, although the calendar disables it.
   */
  method WeekendMeeting(
    storage: LocalStorage<Entry>, isEmail: string -> bool, today: Day,
    formatPPP: Day -> string, details: ContactFormValues)
    returns (page: ContactPage)
    requires Weekday(today) == 0 || Weekday(today) == 6
    requires ContactFormSchema(details, isEmail)
    requires Get(storage.items, MeetingsKey) != Some(Malformed)
    modifies storage
    ensures Disabled(today, today)
    ensures page.step == Success && page.successData.date == Some(formatPPP(today))
    ensures ParseListOrEmpty(Get(storage.items, MeetingsKey))
         == Ok(old(ParseListOrEmpty(Get(storage.items, MeetingsKey))).value
               + [MeetingRequest(MeetingFormValues(details, formatPPP(today), "10:00 AM"), "t")])
  {
    WeekendTodayIsDisabled(today);
    page := new ContactPage(isEmail, today);
    page.EditMeetingForm(details);
    page.OnMeetingDetailsSubmit();
    page.SelectTimeSlot("10:00 AM");
    page.OnMeetingSubmit(storage, formatPPP, "t");
  }
}
