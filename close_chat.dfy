/**
 * The close-chat dialog (src/modules/admin/conversations/CloseChatModal.jsx):
 * optional feedback, an optional report with one of four reasons, and the
 * payload handed to the caller on submit.
 */
module CloseChat {
  import opened Js

  /** The reasons offered once reporting is ticked. */
  const Reasons: seq<string> := ["Spam", "Abusive Language", "Wrong Number", "Other"]

  /** What `onConfirm` receives. */
  datatype ClosePayload = ClosePayload(feedback: string, reportUser: bool, reportReason: Option<string>)

  /** The payload of `handleSubmit`: the reason travels only with a report. */
  function PayloadOf(feedback: string, reportUser: bool, reportReason: string): (p: ClosePayload)
    ensures p.feedback == feedback && p.reportUser == reportUser
    ensures p.reportReason.Some? <==> reportUser
    ensures reportUser ==> p.reportReason == Some(reportReason)
  {
    ClosePayload(feedback, reportUser, if reportUser then Some(reportReason) else None)
  }

  /** The submit button is enabled unless loading, or reporting with no reason chosen. */
  predicate SubmitEnabled(loading: bool, reportUser: bool, reportReason: string)
  {
    !loading && !(reportUser && reportReason == "")
  }

  /** The submit button's caption: a spinner label while loading, else the action. */
  function Caption(loading: bool, reportUser: bool): (c: string)
    ensures loading ==> c == "Processing..."
    ensures !loading && reportUser ==> c == "Report & Close"
    ensures !loading && !reportUser ==> c == "Close Chat"
    ensures c == "Report & Close" <==> !loading && reportUser
  {
    if loading then "Processing..." else if reportUser then "Report & Close" else "Close Chat"
  }

  class CloseChatDialog {
    var feedback: string
    var reportUser: bool
    var reportReason: string

    /** The chosen reason is empty or one of the four offered. */
    predicate Valid()
      reads this
    {
      reportReason == "" || reportReason in Reasons
    }

    constructor ()
      ensures Valid()
      ensures feedback == "" && !reportUser && reportReason == ""
    {
      feedback, reportUser, reportReason := "", false, "";
    }

    method SetFeedback(text: string)
      modifies this
      ensures feedback == text && reportUser == old(reportUser) && reportReason == old(reportReason)
    {
      feedback := text;
    }

    /** The checkbox; unticking it keeps the reason chosen so far. */
    method SetReportUser(checked: bool)
      modifies this
      ensures reportUser == checked && feedback == old(feedback) && reportReason == old(reportReason)
    {
      reportUser := checked;
    }

    /** One of the reason buttons. */
    method ChooseReason(i: nat)
      requires Valid() && i < |Reasons|
      modifies this
      ensures Valid()
      ensures reportReason == Reasons[i] && feedback == old(feedback) && reportUser == old(reportUser)
    {
      reportReason := Reasons[i];
    }

    /**
     * A press of the submit button of an open dialog; nothing is sent while
     * the dialog is closed (it renders nothing) or the button is disabled.
     */
    method Submit(isOpen: bool, loading: bool) returns (sent: Option<ClosePayload>)
      requires Valid()
      ensures sent.Some? <==> isOpen && SubmitEnabled(loading, reportUser, reportReason)
      ensures sent.Some? ==> sent.value == PayloadOf(feedback, reportUser, reportReason)
      ensures sent.Some? && sent.value.reportReason.Some? ==> sent.value.reportReason.value in Reasons
    {
      if isOpen && SubmitEnabled(loading, reportUser, reportReason) {
        sent := Some(PayloadOf(feedback, reportUser, reportReason));
      } else {
        sent := None;
      }
    }
  }
}
