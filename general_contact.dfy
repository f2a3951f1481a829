/** The general contact page: a larger record (with subject and area of
    interest), two update handlers, the same submit flow as the Energies
    page, and a logo path held in state and set by an effect on the theme. */
module GeneralContact {
  import opened ContactForm

  const TemplateKey := "NEXT_PUBLIC_EMAILJS_TEMPLATE_ID_GENERAL"
  const IdleLabel := "Send Message"

  const DarkLogo := "/images/slt-logo-dark.jpeg"
  const LightLogo := "/images/slt-logo-light.jpeg"

  const SentToast := Toast(SuccessToast, "Message sent successfully!", None)
  const FailedToast := Toast(ErrorToast, "Failed to send message. Please try again later.", None)

  const TextFields: set<string> := {"name", "email", "phone", "subject", "message", "interest"}

  /** The initial and reset record: every text field empty, `time` the date
      of the moment. */
  function BlankForm(today: string): (f: FormData)
    ensures f.Keys == TextFields + {"time"}
    ensures forall k :: k in TextFields ==> f[k] == ""
    ensures f["time"] == today
  {
    map["name" := "", "email" := "", "phone" := "", "subject" := "", "message" := "",
        "interest" := "", "time" := today]
  }

  /** The path the theme effect stores: dark exactly for `theme === "dark"`. */
  function ThemeLogo(theme: Option<string>): (src: string)
    ensures src == DarkLogo <==> theme == Some("dark")
    ensures src != DarkLogo ==> src == LightLogo
  {
    if theme == Some("dark") then DarkLogo else LightLogo
  }

  /** `e.target` of a change event on an input or textarea. */
  datatype ChangeEvent = ChangeEvent(name: string, value: string)

  class GeneralContactForm {
    var formData: FormData
    var isSubmitting: bool
    var logoSrc: string
    var sends: seq<SendCall>
    var toasts: seq<Toast>

    ghost predicate Valid()
      reads this
    {
      !isSubmitting && AllWhileSubmitting(sends) && logoSrc != ""
    }

    /** `useState("/placeholder.svg")` for the logo; the blank record. */
    constructor (today: string)
      ensures Valid()
      ensures formData == BlankForm(today)
      ensures logoSrc == Placeholder
      ensures sends == [] && toasts == []
    {
      formData := BlankForm(today);
      isSubmitting := false;
      logoSrc := Placeholder;
      sends := [];
      toasts := [];
    }

    /** The `useEffect` on `[theme]`. */
    method ThemeEffect(theme: Option<string>)
      requires Valid()
      modifies this
      ensures Valid()
      ensures logoSrc == ThemeLogo(theme)
      ensures formData == old(formData) && sends == old(sends) && toasts == old(toasts)
    {
      if theme == Some("dark") {
        logoSrc := DarkLogo;
      } else {
        logoSrc := LightLogo;
      }
    }

    /** What the header `<Image>` shows. */
    function HeaderLogo(): (src: string)
      reads this
      requires Valid()
      ensures src == logoSrc
    {
      ImageSrc(logoSrc)
    }

    function Button(): (b: SubmitButton)
      reads this
      ensures b.disabled == isSubmitting
      ensures b.text == (if isSubmitting then SendingLabel else IdleLabel)
    {
      RenderSubmitButton(isSubmitting, IdleLabel)
    }

    /** `handleChange(e)`: the field named by the input's `name` attribute. */
    method HandleChange(e: ChangeEvent)
      requires Valid()
      modifies this
      ensures Valid()
      ensures formData == SetField(old(formData), e.name, e.value)
      ensures logoSrc == old(logoSrc) && sends == old(sends) && toasts == old(toasts)
    {
      var ChangeEvent(name, value) := e;
      formData := formData[name := value];
    }

    /** `handleSelectChange(name, value)`, used by the area-of-interest select. */
    method HandleSelectChange(name: string, value: string)
      requires Valid()
      modifies this
      ensures Valid()
      ensures formData == SetField(old(formData), name, value)
      ensures logoSrc == old(logoSrc) && sends == old(sends) && toasts == old(toasts)
    {
      formData := formData[name := value];
    }

    method SendForm(outcome: SendOutcome) returns (result: SendOutcome)
      modifies this
      ensures result == outcome
      ensures sends == old(sends) + [SendCall(ServiceKey, TemplateKey, PublicKeyKey, isSubmitting)]
      ensures formData == old(formData) && isSubmitting == old(isSubmitting)
      ensures logoSrc == old(logoSrc) && toasts == old(toasts)
    {
      sends := sends + [SendCall(ServiceKey, TemplateKey, PublicKeyKey, isSubmitting)];
      result := outcome;
    }

    /** `handleSubmit`, as on the Energies page but with this page's
        template, notifications and larger reset record. */
    method HandleSubmit(outcome: SendOutcome, today: string)
      requires Valid()
      modifies this
      ensures Valid()
      ensures sends == old(sends) + [SendCall(ServiceKey, TemplateKey, PublicKeyKey, true)]
      ensures outcome == Success ==> formData == BlankForm(today) && toasts == old(toasts) + [SentToast]
      ensures outcome == Failure ==> formData == old(formData) && toasts == old(toasts) + [FailedToast]
      ensures logoSrc == old(logoSrc)
    {
      isSubmitting := true;
      var result := SendForm(outcome);
      if result == Success {
        toasts := toasts + [SentToast];
        formData := BlankForm(today);
      } else {
        toasts := toasts + [FailedToast];
      }
      isSubmitting := false;
    }
  }

  /** The worked example: name, email and subject filled in, the provider
      accepts, and the visitor sees "Message sent successfully!" and an
      empty form. */
  method JaneDoeScenario(today: string)
  {
    var page := new GeneralContactForm(today);
    assert page.HeaderLogo() == Placeholder;
    page.ThemeEffect(Some("dark"));
    assert page.HeaderLogo() == DarkLogo;
    page.HandleChange(ChangeEvent("name", "Jane Doe"));
    page.HandleChange(ChangeEvent("email", "jane@example.com"));
    page.HandleChange(ChangeEvent("subject", "Inquiry"));
    page.HandleSubmit(Success, today);
    assert page.toasts == [SentToast];
    assert page.toasts[0].title == "Message sent successfully!";
    assert forall k :: k in TextFields ==> page.formData[k] == "";
    assert !page.Button().disabled;
  }
}
