/** The SLT Energies contact page: a record of form fields, an
    `isSubmitting` flag, the submit handler around one e-mail send, and the
    logo chosen from the resolved theme once the page has mounted. */
module EnergiesContact {
  import opened ContactForm

  const TemplateKey := "NEXT_PUBLIC_EMAILJS_TEMPLATE_ID_ENERGIES"
  const IdleLabel := "Get My Free Solar Consultation"

  const DarkLogo := "/images/slt-energies/slt-energies-logo-dark.jpeg"
  const LightLogo := "/images/slt-energies/slt-energies-logo-light.jpeg"

  const SentToast := Toast(SuccessToast, "Solar consultation request sent!",
                           Some("We've received your inquiry and will contact you within 24 hours."))
  const FailedToast := Toast(ErrorToast, "Failed to send request.",
                             Some("Please try again later or contact us directly."))

  /** The text fields of the form; `time` is kept beside them. */
  const TextFields: set<string> := {"name", "email", "phone", "message"}

  /** The record the page starts with and resets to: every text field empty
      and `time` set to the date of the moment (`toLocaleDateString()`). */
  function BlankForm(today: string): (f: FormData)
    ensures f.Keys == TextFields + {"time"}
    ensures forall k :: k in TextFields ==> f[k] == ""
    ensures f["time"] == today
  {
    map["name" := "", "email" := "", "phone" := "", "message" := "", "time" := today]
  }

  /** `logoSrc`: the dark logo exactly when the page has mounted and the
      resolved theme is "dark"; the light logo otherwise (before mounting,
      and when the theme is unresolved or anything else). */
  function LogoSrc(mounted: bool, resolvedTheme: Option<string>): (src: string)
    ensures src == DarkLogo <==> mounted && resolvedTheme == Some("dark")
    ensures src != DarkLogo ==> src == LightLogo
  {
    if mounted && resolvedTheme == Some("dark") then DarkLogo else LightLogo
  }

  /** The logo `<img>` never falls back to the placeholder. */
  lemma LogoNeverPlaceholder(mounted: bool, resolvedTheme: Option<string>)
    ensures ImageSrc(LogoSrc(mounted, resolvedTheme)) == LogoSrc(mounted, resolvedTheme)
    ensures ImageSrc(LogoSrc(mounted, resolvedTheme)) != Placeholder
  {
  }

  /** The page's state. `sends` and `toasts` record, in order, the outbound
      calls made and the notifications raised. */
  class EnergiesContactForm {
    var formData: FormData
    var isSubmitting: bool
    var mounted: bool
    var sends: seq<SendCall>
    var toasts: seq<Toast>

    /** Between events the flag is down, and every send so far was made
        with the flag up. */
    ghost predicate Valid()
      reads this
    {
      !isSubmitting && AllWhileSubmitting(sends)
    }

    constructor (today: string)
      ensures Valid()
      ensures formData == BlankForm(today)
      ensures !mounted && sends == [] && toasts == []
    {
      formData := BlankForm(today);
      isSubmitting := false;
      mounted := false;
      sends := [];
      toasts := [];
    }

    /** The mount effect: `setMounted(true)`. */
    method OnMount()
      requires Valid()
      modifies this
      ensures Valid()
      ensures mounted
      ensures formData == old(formData) && sends == old(sends) && toasts == old(toasts)
    {
      mounted := true;
    }

    /** The logo for the theme `next-themes` currently resolves to. */
    function CurrentLogo(resolvedTheme: Option<string>): (src: string)
      reads this
      ensures src == DarkLogo <==> mounted && resolvedTheme == Some("dark")
      ensures src != DarkLogo ==> src == LightLogo
    {
      LogoSrc(mounted, resolvedTheme)
    }

    /** The submit button as rendered from the current state. */
    function Button(): (b: SubmitButton)
      reads this
      ensures b.disabled == isSubmitting
      ensures b.text == (if isSubmitting then SendingLabel else IdleLabel)
    {
      RenderSubmitButton(isSubmitting, IdleLabel)
    }

    /** `handleInputChange(field, value)`. */
    method HandleInputChange(field: string, value: string)
      requires Valid()
      modifies this
      ensures Valid()
      ensures formData == SetField(old(formData), field, value)
      ensures mounted == old(mounted) && sends == old(sends) && toasts == old(toasts)
    {
      formData := formData[field := value];
    }

    /** `emailjs.sendForm(service, template, form, key)`: one outbound call,
        whose result the environment decides. */
    method SendForm(outcome: SendOutcome) returns (result: SendOutcome)
      modifies this
      ensures result == outcome
      ensures sends == old(sends) + [SendCall(ServiceKey, TemplateKey, PublicKeyKey, isSubmitting)]
      ensures formData == old(formData) && isSubmitting == old(isSubmitting)
      ensures mounted == old(mounted) && toasts == old(toasts)
    {
      sends := sends + [SendCall(ServiceKey, TemplateKey, PublicKeyKey, isSubmitting)];
      result := outcome;
    }

    /** `handleSubmit`: raise the flag, send once, then on success notify and
        reset the record, on failure notify and keep it, and lower the flag
        in every case. `today` is the date string the reset stores. */
    method HandleSubmit(outcome: SendOutcome, today: string)
      requires Valid()
      modifies this
      ensures Valid()
      ensures sends == old(sends) + [SendCall(ServiceKey, TemplateKey, PublicKeyKey, true)]
      ensures outcome == Success ==> formData == BlankForm(today) && toasts == old(toasts) + [SentToast]
      ensures outcome == Failure ==> formData == old(formData) && toasts == old(toasts) + [FailedToast]
      ensures mounted == old(mounted)
    {
      isSubmitting := true;
      var result := SendForm(outcome);
      if result == Success {
        toasts := toasts + [SentToast];
        formData := BlankForm(today);
      } else {
        toasts := toasts + [FailedToast];
      }
      isSubmitting := false;
    }
  }

  /** A visitor fills in two fields and the send succeeds: the record is
      blank again and one success notification was raised. */
  method FillAndSubmit(today: string, later: string)
  {
    var page := new EnergiesContactForm(today);
    page.OnMount();
    page.HandleInputChange("name", "Jane Doe");
    page.HandleInputChange("email", "jane@example.com");
    assert page.formData["name"] == "Jane Doe";
    assert page.Button().text == IdleLabel;
    page.HandleSubmit(Success, later);
    assert page.formData["name"] == "" && page.formData["email"] == "";
    assert page.toasts == [SentToast] && |page.sends| == 1;
  }
}
