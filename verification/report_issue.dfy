/**
 * The report page: the form record, the uploaded image URL, the submission
 * with its error and AI-result display, and the redirect after success.
 * Toasts and scheduled navigations are recorded in order.
 */
module ReportIssue {
  import opened Common
  import opened IssueForm
  import Api

  /** The classifier's verdict returned with a created issue. */
  datatype AiAnalysis = AiAnalysis(category: string, severity: string, confidence: real)

  /** The create endpoint's reply, of which the page reads `aiAnalysis`. */
  datatype CreateReply = CreateReply(aiAnalysis: Option<AiAnalysis>)

  const NoImageError := "Please upload an image first"
  const SubmitFailedFallback := "Failed to submit issue"
  const ReportedToast := "Issue reported successfully!"
  const LocationCapturedToast := "Location captured successfully"
  const DashboardPath := "/dashboard"

  /** `formData.imageUrl`, "" when absent. */
  function ImageUrl(form: FormData): string {
    if "imageUrl" in form.top then form.top["imageUrl"] else ""
  }

  /** `err.message || 'Failed to submit issue'`. */
  function SubmitErrorText(message: string): (text: string)
    ensures message != "" ==> text == message
    ensures message == "" ==> text == SubmitFailedFallback
  {
    if message != "" then message else SubmitFailedFallback
  }

  /** A failed submission always shows the client's normalised message: the page's own fallback is never reached. */
  lemma SubmitFallbackUnreachable(e: HttpError)
    ensures SubmitErrorText(Api.Settle<CreateReply>(Failed(e)).message) == Api.HandleError(e)
  {
  }

  class ReportIssuePage {
    var form: FormData
    var loading: bool
    var error: string
    var aiResult: Option<AiAnalysis>
    var toasts: seq<Toast>
    /** Records sent to the create endpoint. */
    var submitted: seq<FormData>
    /** Paths the page has scheduled a navigation to. */
    var navigations: seq<string>

    constructor ()
      ensures form == InitialForm && !loading && error == "" && aiResult == None
      ensures toasts == [] && submitted == [] && navigations == []
    {
      form := InitialForm;
      loading := false;
      error := "";
      aiResult := None;
      toasts := [];
      submitted := [];
      navigations := [];
    }

    /** handleChange: the shared change rule on the page's record. */
    method HandleChange(name: string, value: string)
      modifies this
      ensures form == Update(old(form), name, value)
      ensures loading == old(loading) && error == old(error) && aiResult == old(aiResult)
      ensures toasts == old(toasts) && submitted == old(submitted) && navigations == old(navigations)
    {
      form := Update(form, name, value);
    }

    /** handleImageUploaded: stores the URL (an empty one clears it) and clears the error. */
    method HandleImageUploaded(url: string)
      modifies this
      ensures form == old(form).(top := old(form).top["imageUrl" := url])
      ensures ImageUrl(form) == url && error == ""
      ensures loading == old(loading) && aiResult == old(aiResult)
      ensures toasts == old(toasts) && submitted == old(submitted) && navigations == old(navigations)
    {
      form := form.(top := form.top["imageUrl" := url]);
      error := "";
    }

    /** getCurrentLocation, with a success toast and error toasts in place of alerts. */
    method UseCurrentLocation(geo: Geolocation)
      modifies this
      ensures geo.Located? ==>
        form == WithPosition(old(form), geo.latitude, geo.longitude) &&
        toasts == old(toasts) + [Toast(LocationCapturedToast, SuccessToast)]
      ensures geo.Denied? ==>
        form == old(form) && toasts == old(toasts) + [Toast(LocationDeniedPrefix + geo.message, ErrorToast)]
      ensures geo.Unsupported? ==>
        form == old(form) && toasts == old(toasts) + [Toast(LocationUnsupportedMessage, ErrorToast)]
      ensures loading == old(loading) && error == old(error) && aiResult == old(aiResult)
      ensures submitted == old(submitted) && navigations == old(navigations)
    {
      match geo {
        case Located(latitude, longitude) =>
          form := WithPosition(form, latitude, longitude);
          toasts := toasts + [Toast(LocationCapturedToast, SuccessToast)];
        case Denied(message) =>
          toasts := toasts + [Toast(LocationDeniedPrefix + message, ErrorToast)];
        case Unsupported =>
          toasts := toasts + [Toast(LocationUnsupportedMessage, ErrorToast)];
      }
    }

    /**
     * handleSubmit: without an image URL only the error is set and nothing is
     * sent. Otherwise the record is sent; a reply shows its AI analysis, a
     * success toast and schedules the dashboard; a failure shows the message
     * as error and toast. Loading is off afterwards.
     */
    method HandleSubmit(call: Call<CreateReply>)
      modifies this
      ensures form == old(form)
      ensures ImageUrl(old(form)) == "" ==>
        && error == NoImageError
        && loading == old(loading) && aiResult == old(aiResult)
        && toasts == old(toasts) && submitted == old(submitted) && navigations == old(navigations)
      ensures ImageUrl(old(form)) != "" ==>
        && !loading
        && submitted == old(submitted) + [old(form)]
        && match Api.Settle(call)
           case Ok(reply) =>
             && aiResult == reply.aiAnalysis && error == ""
             && toasts == old(toasts) + [Toast(ReportedToast, SuccessToast)]
             && navigations == old(navigations) + [DashboardPath]
           case Err(message) =>
             && aiResult == None && error == SubmitErrorText(message)
             && toasts == old(toasts) + [Toast(SubmitErrorText(message), ErrorToast)]
             && navigations == old(navigations)
    {
      if ImageUrl(form) == "" {
        error := NoImageError;
        return;
      }
      loading := true;
      error := "";
      aiResult := None;
      submitted := submitted + [form];
      match Api.Settle(call) {
        case Ok(reply) =>
          aiResult := reply.aiAnalysis;
          toasts := toasts + [Toast(ReportedToast, SuccessToast)];
          navigations := navigations + [DashboardPath];
        case Err(message) =>
          error := SubmitErrorText(message);
          toasts := toasts + [Toast(SubmitErrorText(message), ErrorToast)];
      }
      loading := false;
    }

    /** The submit button is disabled while loading and while no image URL is set. */
    function SubmitDisabled(): (disabled: bool)
      reads this
      ensures disabled <==> loading || ImageUrl(form) == ""
    {
      loading || ImageUrl(form) == ""
    }

    /** The success screen replaces the form exactly when an AI result is held. */
    function ShowsSuccess(): (shown: bool)
      reads this
      ensures shown <==> aiResult.Some?
    {
      aiResult.Some?
    }
  }

  /** A fresh page's submit button is disabled, and an uploaded URL enables it. */
  method UploadEnablesSubmit(url: string) returns (disabledBefore: bool, disabledAfter: bool)
    ensures disabledBefore
    ensures disabledAfter <==> url == ""
  {
    var page := new ReportIssuePage();
    disabledBefore := page.SubmitDisabled();
    page.HandleImageUploaded(url);
    disabledAfter := page.SubmitDisabled();
  }
}
