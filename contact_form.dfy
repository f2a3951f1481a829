/** Pieces shared by the two contact pages: the form record, the update
    `{ ...prev, [field]: value }`, the outcome of the e-mail send, the
    notifications, the submit button and the logo placeholder fallback. */
module ContactForm {

  datatype Option<+T> = None | Some(value: T)

  /** A form record: field name to field value (a JavaScript object of strings). */
  type FormData = map<string, string>

  /** `{ ...prev, [field]: value }`: the spread copies every field of `prev`,
      then the computed key overwrites (or adds) `field`. */
  function SetField(prev: FormData, field: string, value: string): (next: FormData)
    ensures field in next && next[field] == value
    ensures next.Keys == prev.Keys + {field}
    ensures forall k :: k in prev && k != field ==> next[k] == prev[k]
  {
    prev[field := value]
  }

  /** Two records agree everywhere except possibly at `field`. */
  ghost predicate SameExcept(a: FormData, b: FormData, field: string)
  {
    a.Keys - {field} == b.Keys - {field} &&
    forall k :: k in a && k in b && k != field ==> a[k] == b[k]
  }

  /** Updating one field touches nothing else, and writing the value a field
      already holds gives back the same record. */
  lemma SetFieldOnlyChangesField(prev: FormData, field: string, value: string)
    ensures SameExcept(prev, SetField(prev, field, value), field)
    ensures field in prev && prev[field] == value ==> SetField(prev, field, value) == prev
  {
  }

  /** Two updates of the same field: the later one wins. */
  lemma SetFieldLastWriteWins(prev: FormData, field: string, v1: string, v2: string)
    ensures SetField(SetField(prev, field, v1), field, v2) == SetField(prev, field, v2)
  {
  }

  /** Updates of two different fields commute. */
  lemma SetFieldCommutes(prev: FormData, f: string, g: string, v: string, w: string)
    requires f != g
    ensures SetField(SetField(prev, f, v), g, w) == SetField(SetField(prev, g, w), f, v)
  {
  }

  /** One call of a field-update handler: which field, and its new value. */
  datatype Edit = Edit(field: string, value: string)

  /** A run of update-handler calls, applied in order. */
  function ApplyEdits(form: FormData, edits: seq<Edit>): (r: FormData)
    ensures form.Keys <= r.Keys
    decreases |edits|
  {
    if edits == [] then form
    else ApplyEdits(SetField(form, edits[0].field, edits[0].value), edits[1..])
  }

  /** Whether some call in `edits` writes `field`. */
  predicate Writes(edits: seq<Edit>, field: string)
  {
    exists i :: 0 <= i < |edits| && edits[i].field == field
  }

  /** A field that no call in the run writes keeps its value. */
  lemma {:induction false} ApplyEditsKeepsUntouched(form: FormData, edits: seq<Edit>, field: string)
    requires field in form && !Writes(edits, field)
    ensures field in ApplyEdits(form, edits)
    ensures ApplyEdits(form, edits)[field] == form[field]
    decreases |edits|
  {
    if edits != [] {
      var next := SetField(form, edits[0].field, edits[0].value);
      assert edits[0].field != field;
      forall i | 0 <= i < |edits[1..]| ensures edits[1..][i].field != field {
        assert edits[1..][i] == edits[i + 1];
      }
      ApplyEditsKeepsUntouched(next, edits[1..], field);
    }
  }

  /** A field written by the final call of a run holds that call's value. */
  lemma {:induction false} ApplyEditsLastWriteWins(form: FormData, edits: seq<Edit>, e: Edit)
    ensures e.field in ApplyEdits(form, edits + [e])
    ensures ApplyEdits(form, edits + [e])[e.field] == e.value
    decreases |edits|
  {
    if edits == [] {
      assert [e][1..] == [];
    } else {
      assert (edits + [e])[1..] == edits[1..] + [e];
      ApplyEditsLastWriteWins(SetField(form, edits[0].field, edits[0].value), edits[1..], e);
    }
  }

  /** A run split in two is the first part followed by the second. */
  lemma {:induction false} ApplyEditsAppend(form: FormData, a: seq<Edit>, b: seq<Edit>)
    ensures ApplyEdits(form, a + b) == ApplyEdits(ApplyEdits(form, a), b)
    decreases |a|
  {
    if a == [] {
      assert a + b == b;
    } else {
      assert (a + b)[1..] == a[1..] + b;
      ApplyEditsAppend(SetField(form, a[0].field, a[0].value), a[1..], b);
    }
  }

  /** The last call of a run that writes a field decides its value, however
      many calls on other fields follow it. */
  lemma ApplyEditsLastWriterDecides(form: FormData, pre: seq<Edit>, e: Edit, post: seq<Edit>)
    requires !Writes(post, e.field)
    ensures e.field in ApplyEdits(form, pre + [e] + post)
    ensures ApplyEdits(form, pre + [e] + post)[e.field] == e.value
  {
    ApplyEditsAppend(form, pre + [e], post);
    ApplyEditsLastWriteWins(form, pre, e);
    ApplyEditsKeepsUntouched(ApplyEdits(form, pre + [e]), post, e.field);
  }

  /** What `emailjs.sendForm` resolves to: it either resolves or rejects. */
  datatype SendOutcome = Success | Failure

  /** One outbound call: the three configuration variables it names, and
      whether the page's submitting flag was set when it was made. */
  datatype SendCall = SendCall(serviceKey: string, templateKey: string, publicKeyKey: string,
                               submittingAtCall: bool)

  const ServiceKey := "NEXT_PUBLIC_EMAILJS_SERVICE_ID"
  const PublicKeyKey := "NEXT_PUBLIC_EMAILJS_PUBLIC_KEY"

  /** A call made by a well-behaved submit handler: the flag was up. */
  ghost predicate AllWhileSubmitting(sends: seq<SendCall>)
  {
    forall i :: 0 <= i < |sends| ==> sends[i].submittingAtCall
  }

  datatype ToastKind = SuccessToast | ErrorToast

  /** A `sonner` notification: `toast.success(title, { description })` or `toast.error(...)`. */
  datatype Toast = Toast(kind: ToastKind, title: string, description: Option<string>)

  /** The submit button as rendered: `disabled={isSubmitting}` and the label
      `isSubmitting ? "Sending..." : idleLabel`. */
  datatype SubmitButton = SubmitButton(disabled: bool, text: string)

  const SendingLabel := "Sending..."

  function RenderSubmitButton(isSubmitting: bool, idleLabel: string): (b: SubmitButton)
    requires idleLabel != SendingLabel
    ensures b.disabled == isSubmitting
    ensures b.text == SendingLabel <==> isSubmitting
    ensures !isSubmitting ==> b.text == idleLabel
  {
    SubmitButton(isSubmitting, if isSubmitting then SendingLabel else idleLabel)
  }

  const Placeholder := "/placeholder.svg"

  /** `src={logoSrc || "/placeholder.svg"}`: the empty string is falsy. */
  function ImageSrc(logoSrc: string): (src: string)
    ensures src != ""
    ensures logoSrc != "" ==> src == logoSrc
    ensures logoSrc == "" ==> src == Placeholder
  {
    if logoSrc == "" then Placeholder else logoSrc
  }
}
