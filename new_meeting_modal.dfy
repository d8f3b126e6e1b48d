/** components/NewMeetingModal.tsx: the dialog that makes a meeting link and hands a title
    (and, when scheduling, a date and a time) to the application. */
module NewMeetingModal {
  import opened Wrappers
  import opened Types
  import opened Text

  const InstantMeeting := "Instant Meeting"

  class NewMeetingForm {
    var meetingLink: string
    var isCopied: bool
    var meetingTitle: string
    var meetingDate: string
    var meetingTime: string

    constructor ()
      ensures meetingLink == "" && !isCopied && meetingTitle == "" && meetingDate == "" && meetingTime == ""
    {
      meetingLink := "";
      isCopied := false;
      meetingTitle := "";
      meetingDate := "";
      meetingTime := "";
    }

    /** The effect run when the dialog opens: a new room link and an empty form. */
    method Open(origin: string, roomId: string)
      modifies this
      ensures meetingLink == origin + "/meet/" + roomId
      ensures !isCopied && meetingTitle == "" && meetingDate == "" && meetingTime == ""
      ensures ScheduleDisabled()
    {
      meetingLink := origin + "/meet/" + roomId;
      isCopied := false;
      meetingTitle := "";
      meetingDate := "";
      meetingTime := "";
    }

    /** `handleCopyLink`: the link is marked as copied. */
    method CopyLink()
      modifies this`isCopied
      ensures isCopied
    {
      isCopied := true;
    }

    /** The Schedule button's `disabled`: a blank title, or no date, or no time. */
    predicate ScheduleDisabled()
      reads this
    {
      Trim(meetingTitle) == "" || meetingDate == "" || meetingTime == ""
    }

    /** `handleSchedule`: the details handed to `onCreateMeeting`, or none when the guard
        fails; the guard fails exactly when the button is disabled. */
    method Schedule() returns (r: Option<MeetingDetails>)
      ensures r.None? <==> ScheduleDisabled()
      ensures r.Some? ==> r.value == MeetingDetails(Trim(meetingTitle), Some(meetingDate), Some(meetingTime))
      ensures r.Some? ==> r.value.title != "" && r.value.date.value != "" && r.value.time.value != ""
    {
      var title := Trim(meetingTitle);
      if title != "" && meetingDate != "" && meetingTime != "" {
        r := Some(MeetingDetails(title, Some(meetingDate), Some(meetingTime)));
      } else {
        r := None;
      }
    }

    /** `handleStartNow`: the trimmed title, or 'Instant Meeting' when it is blank; never a
        date or a time. */
    method StartNow() returns (d: MeetingDetails)
      ensures d.date == None && d.time == None
      ensures Trim(meetingTitle) != "" ==> d.title == Trim(meetingTitle)
      ensures Trim(meetingTitle) == "" ==> d.title == InstantMeeting
      ensures d.title != ""
    {
      var title := Trim(meetingTitle);
      if title == "" {
        title := InstantMeeting;
      }
      d := MeetingDetails(title, None, None);
    }
  }
}
