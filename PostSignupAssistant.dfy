/**
 * The assistant shown after registration: the user describes an issue and an
 * external text-generation service drafts a report from it. The request itself
 * is not modelled; its two outcomes are the completion methods below.
 */
module PostSignupAssistant {
  import opened Wrappers
  import opened Text

  /** The drafted report the service returns. */
  datatype Report = Report(title: string, description: string, category: string)

  const DescribeFirst := "Please describe the issue first."
  const Unavailable := "Sorry, the AI assistant is currently unavailable. Please try again later."

  class Assistant {
    var issueDescription: string
    var draftedReport: Option<Report>
    var isLoading: bool
    var error: string

    /** While a request is outstanding no draft is shown and no error either. */
    ghost predicate Valid()
      reads this
    {
      isLoading ==> draftedReport == None && error == ""
    }

    constructor ()
      ensures Valid()
      ensures issueDescription == "" && draftedReport == None && !isLoading && error == ""
    {
      issueDescription := "";
      draftedReport := None;
      isLoading := false;
      error := "";
    }

    /** Typing into the description stores the text and clears the error. */
    method EditDescription(text: string)
      requires Valid()
      modifies this
      ensures Valid()
      ensures issueDescription == text && error == ""
      ensures draftedReport == old(draftedReport) && isLoading == old(isLoading)
    {
      issueDescription := text;
      error := "";
    }

    /**
     * `handleDraftReport` up to the request: a description that is blank after
     * trimming sets the advisory and starts nothing; otherwise loading starts,
     * the error is cleared and any previous draft is dropped. The button is
     * disabled while a request is outstanding.
     */
    method HandleDraftReport() returns (started: bool)
      requires Valid() && !isLoading
      modifies this
      ensures Valid()
      ensures started <==> !Blank(issueDescription)
      ensures issueDescription == old(issueDescription)
      ensures !started ==> error == DescribeFirst && draftedReport == old(draftedReport) && !isLoading
      ensures started ==> isLoading && error == "" && draftedReport == None
    {
      if TrimsToEmpty(issueDescription) {
        error := DescribeFirst;
        return false;
      }
      isLoading := true;
      error := "";
      draftedReport := None;
      started := true;
    }

    /** The service answered with a parsable report: it is shown and loading stops. */
    method DraftSucceeded(report: Report)
      requires Valid() && isLoading
      modifies this
      ensures Valid()
      ensures draftedReport == Some(report) && !isLoading && error == ""
      ensures issueDescription == old(issueDescription)
    {
      draftedReport := Some(report);
      isLoading := false;
    }

    /**
     * The reply text parsed to a falsy JSON value such as `null`: no exception
     * is raised, so no error is shown, loading stops and no draft is shown.
     */
    method DraftParsedToNothing()
      requires Valid() && isLoading
      modifies this
      ensures Valid()
      ensures draftedReport == None && !isLoading && error == ""
      ensures issueDescription == old(issueDescription)
    {
      draftedReport := None;
      isLoading := false;
    }

    /**
     * Any failure (transport, a non-success status, an empty or unparsable
     * payload): the single advisory is shown, loading stops, and no draft is
     * shown because the start of the request dropped it.
     */
    method DraftFailed()
      requires Valid() && isLoading
      modifies this
      ensures Valid()
      ensures error == Unavailable && !isLoading && draftedReport == None
      ensures issueDescription == old(issueDescription)
    {
      error := Unavailable;
      isLoading := false;
    }
  }

  /** A failed request after an earlier success leaves no draft on screen, only the advisory. */
  method RetryAfterSuccessThenFailure(first: Report, text: string) returns (shown: Option<Report>, message: string)
    requires !Blank(text)
    ensures shown == None && message == Unavailable
  {
    var a := new Assistant();
    a.EditDescription(text);
    var started := a.HandleDraftReport();
    a.DraftSucceeded(first);
    started := a.HandleDraftReport();
    a.DraftFailed();
    shown, message := a.draftedReport, a.error;
  }
}
