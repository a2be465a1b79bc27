/** The contact form in the site footer. */
module Footer {
  import opened Wrappers
  import opened LeadForm
  import App

  class FooterForm {
    var formData: FormData
    var submitError: string
    var isSubmitting: bool

    /** The mobile number only ever holds digits. */
    predicate Valid()
      reads this
    {
      AllDigits(formData.mobileNumber)
    }

    constructor ()
      ensures formData == EmptyForm && submitError == "" && !isSubmitting && Valid()
    {
      formData := EmptyForm;
      submitError := "";
      isSubmitting := false;
    }

    /** The generic change handler: the named field changes, and a shown error is cleared. */
    method HandleInputChange(c: Change)
      modifies this
      ensures formData == ApplyChange(old(formData), c)
      ensures submitError == "" && isSubmitting == old(isSubmitting)
      ensures old(Valid()) ==> Valid()
    {
      formData := ApplyChange(formData, c);
      if submitError != "" {
        submitError := "";
      }
    }

    /** The mobile number's handler stores the typed text with its non-digits removed. */
    method HandleMobileNumberChange(value: string)
      modifies this
      ensures formData == old(formData).(mobileNumber := DigitsOnly(value))
      ensures submitError == "" && isSubmitting == old(isSubmitting)
      ensures Valid()
    {
      formData := formData.(mobileNumber := DigitsOnly(value));
      if submitError != "" {
        submitError := "";
      }
    }

    /** Submit: the gate, then the request is handed out and the form is in flight. */
    method HandleSubmit() returns (request: Option<BookingRequest>)
      modifies this
      ensures formData == old(formData)
      ensures request.Some? <==> !MissingRequired(formData)
      ensures request.Some? ==> request.value == RequestBody(formData) && isSubmitting && submitError == ""
      ensures request.None? ==> submitError == RequiredFieldsMessage && isSubmitting == old(isSubmitting)
    {
      if formData.fullName == "" || formData.email == "" || formData.mobileNumber == "" ||
         formData.constructionTime == "" || formData.ownPlot == "" || !formData.agreeToTerms {
        submitError := RequiredFieldsMessage;
        return None;
      }
      isSubmitting := true;
      submitError := "";
      request := Some(RequestBody(formData));
    }

    /** The reply: on ok the app's success toast gets the server's message and the form is
        emptied; otherwise the form is kept and the error line is set. Either way the form is
        no longer in flight. */
    method ReceiveResponse(app: App.AppState, reply: Reply<BookingReply, BookingError>)
      modifies this, app
      ensures !isSubmitting
      ensures old(Valid()) ==> Valid()
      ensures reply.Accepted? ==>
        formData == EmptyForm && submitError == old(submitError)
        && app.successMessage == reply.body.message && app.isSuccessVisible
        && app.isModalOpen == old(app.isModalOpen)
      ensures !reply.Accepted? ==>
        formData == old(formData) && submitError == FailureMessage(reply)
        && app.successMessage == old(app.successMessage) && app.isSuccessVisible == old(app.isSuccessVisible)
        && app.isModalOpen == old(app.isModalOpen)
    {
      if reply.Accepted? {
        app.HandleBookingSuccess(reply.body.message);
        formData := EmptyForm;
      } else {
        submitError := FailureMessage(reply);
      }
      isSubmitting := false;
    }
  }
}
