# Smart Life Transformers website: state logic

This project models the three pieces of real state logic in the Smart Life Transformers marketing site:

- **The branch carousel** (`BranchSlider`) keeps one index, `currentIndex`, into a fixed list of three branches. The chevrons step it forwards or backwards modulo the list length, and clicking a dot sets it directly. Module `BranchCarousel` holds class `BranchSlider` and the pure step functions `Next` and `Prev` it is specified by.
- **The SLT Energies contact page** keeps a record of form fields and an `isSubmitting` flag. Its submit handler raises the flag, makes one e-mail send, resets the record on success or keeps it on failure, raises a notification, and lowers the flag. Its logo is a pure choice made from `mounted` and the resolved theme. This is module `EnergiesContact`.
- **The general contact page** has the same submit flow over a larger record, with subject and area of interest. It has two update handlers, and its logo path is state that starts as `"/placeholder.svg"` and is set by an effect on the theme. This is module `GeneralContact`.

Module `ContactForm` holds what both pages share:
- the record update `{ ...prev, [field]: value }` (`SetField`) and the same update repeated over a run of handler calls (`ApplyEdits`);
- the send outcome, the log entry for each send, the notifications, the submit button, and the `logoSrc || "/placeholder.svg"` fallback.

Modelling decisions:
- A form record is a `map<string, string>`. The update handlers accept any field name, and the spread-then-set update adds the key if it is missing, so a map captures the code exactly.
- The e-mail send (`emailjs.sendForm`) is the one outside call. `HandleSubmit` takes its outcome, `Success` or `Failure`, as a parameter, so every contract holds whichever way the send goes. Each send is appended to a log `sends` together with the value of `isSubmitting` at the moment of the call. That is how "exactly one send per submit" and "the flag is up during the send" become facts about state. The class invariant `Valid()` says that the flag is down between events and that every logged send was made with the flag up.
- The notifications raised are kept in order in `toasts`, as a kind, a title and an optional description.
- `new Date().toLocaleDateString()`, used for the `time` field, is a parameter `today`: it gets its value from the clock and the locale.
- The theme from `next-themes` is a parameter `Option<string>`, where `None` stands for an unresolved theme.
- The JavaScript `%` truncates and Dafny's is Euclidean. Both carousel steps apply it only to non-negative operands, where the two agree.

Behaviour of the code worth knowing:
- On success the text fields become `""` and `time` gets a fresh date string (`BlankForm`).
- The carousel has no auto-advance timer: it moves only on a chevron or dot click.
- The Energies contact page shows the light logo until it has mounted, whatever the theme. The general contact page compares `theme`, not `resolvedTheme`, with `"dark"`, so a `"system"` theme gives the light logo there.

## Model

| member | source | states |
|---|---|---|
| ContactForm.SetField | app/slt-energies/contact/page.tsx:89-91 | the updated record holds `value` at `field`, its keys are the old keys plus `field`, and every other key keeps its old value |
| ContactForm.SetFieldOnlyChangesField | app/contact/page.tsx:56-58 | an update leaves every field other than the named one as it was, and writing a field's current value gives back the same record |
| ContactForm.SetFieldLastWriteWins | app/contact/page.tsx:49-54 | two updates of the same field equal the second update alone |
| ContactForm.SetFieldCommutes | app/contact/page.tsx:49-58 | updates of two different fields give the same record in either order |
| ContactForm.ApplyEdits | app/slt-energies/contact/page.tsx:89-91 | a run of update-handler calls never removes a field of the record |
| ContactForm.ApplyEditsKeepsUntouched | app/contact/page.tsx:49-58 | after any run of handler calls, a field that none of them names still has its original value |
| ContactForm.ApplyEditsLastWriteWins | app/slt-energies/contact/page.tsx:89-91 | a field holds the value of the run's final call when that call names it |
| ContactForm.ApplyEditsAppend | app/slt-energies/contact/page.tsx:89-91 | applying a run split in two is applying the first part and then the second |
| ContactForm.ApplyEditsLastWriterDecides | app/contact/page.tsx:49-58 | after any run of handler calls, a field holds the value of the last call that names it, whatever calls on other fields follow |
| ContactForm.RenderSubmitButton | app/contact/page.tsx:231-232 | the button is disabled exactly while submitting, shows "Sending..." exactly while submitting, and otherwise shows the page's idle label |
| ContactForm.ImageSrc | app/contact/page.tsx:94 | the image source is never empty: a non-empty logo path is used as it is, and an empty one is replaced by "/placeholder.svg" |
| BranchCarousel.BranchCount | components/branch-slider.tsx:9-40 | the branch list has exactly three entries |
| BranchCarousel.BranchIdsDistinct | components/branch-slider.tsx:9-64 | the branch ids, which serve as React keys, are pairwise distinct |
| BranchCarousel.Next | components/branch-slider.tsx:45-47 | the next index stays in [0, n), is i+1 below the last index, and wraps from n-1 to 0 |
| BranchCarousel.Prev | components/branch-slider.tsx:49-51 | the previous index stays in [0, n), is i-1 above 0, and wraps from 0 to n-1 |
| BranchCarousel.PrevNextInverse | components/branch-slider.tsx:45-51 | prev after next, and next after prev, both return to the starting index |
| BranchCarousel.Advance | components/branch-slider.tsx:45-47 | any number of next presses keeps the index in bounds |
| BranchCarousel.Retreat | components/branch-slider.tsx:49-51 | any number of prev presses keeps the index in bounds |
| BranchCarousel.AdvanceIsAddition | components/branch-slider.tsx:45-47 | k next presses from i land on (i + k) mod n |
| BranchCarousel.FullCycleReturns | components/branch-slider.tsx:45-47 | n next presses return the carousel to its starting index |
| BranchCarousel.CarouselFullCycle | components/branch-slider.tsx:9-47 | on the site's three branches, three next presses return to the starting index |
| BranchCarousel.RetreatUndoesAdvance | components/branch-slider.tsx:45-51 | k prev presses undo k next presses |
| BranchCarousel.ExactlyOneDotActive | components/branch-slider.tsx:117-123 | of the dots, one per branch, exactly the one at the current index is highlighted |
| BranchCarousel.BranchSlider.constructor | components/branch-slider.tsx:43 | the carousel starts at index 0 |
| BranchCarousel.BranchSlider.NextSlide | components/branch-slider.tsx:45-47 | the index becomes Next of the old index and stays valid |
| BranchCarousel.BranchSlider.PrevSlide | components/branch-slider.tsx:49-51 | the index becomes Prev of the old index and stays valid |
| BranchCarousel.BranchSlider.SelectDot | components/branch-slider.tsx:117-120 | clicking dot k sets the index to exactly k, a valid index since there is one dot per branch |
| BranchCarousel.BranchSlider.IsDotActive | components/branch-slider.tsx:121-123 | a dot is reported active exactly when its position equals the current index |
| BranchCarousel.NavigationRoundTrip | components/branch-slider.tsx:45-51 | next then prev, then three more nexts, leave a carousel of three branches where it was |
| EnergiesContact.BlankForm | app/slt-energies/contact/page.tsx:47-53 | the initial and reset record has exactly the keys name, email, phone, message and time, with the text fields empty and time set to the given date |
| EnergiesContact.LogoSrc | app/slt-energies/contact/page.tsx:100-103 | the logo is the dark path exactly when the page has mounted and the resolved theme is "dark", and the light path otherwise |
| EnergiesContact.LogoNeverPlaceholder | app/slt-energies/contact/page.tsx:125-127 | the header image always shows the chosen logo and never the placeholder |
| EnergiesContact.EnergiesContactForm.constructor | app/slt-energies/contact/page.tsx:46-53 | the page starts not submitting, not mounted, with the blank record and with nothing sent or notified |
| EnergiesContact.EnergiesContactForm.OnMount | app/slt-energies/contact/page.tsx:94-98 | the mount effect sets `mounted` and changes nothing else |
| EnergiesContact.EnergiesContactForm.CurrentLogo | app/slt-energies/contact/page.tsx:93-103 | the current logo is dark exactly when mounted and the resolved theme is "dark" |
| EnergiesContact.EnergiesContactForm.Button | app/slt-energies/contact/page.tsx:386-394 | the button is disabled while submitting, labelled "Sending..." then and "Get My Free Solar Consultation" otherwise |
| EnergiesContact.EnergiesContactForm.HandleInputChange | app/slt-energies/contact/page.tsx:89-91 | the record becomes SetField of the old record, and the flag, the send log and the notifications are unchanged |
| EnergiesContact.EnergiesContactForm.SendForm | app/slt-energies/contact/page.tsx:61-66 | one send with the Energies template is logged together with the flag's value at the call, and nothing else changes |
| EnergiesContact.EnergiesContactForm.HandleSubmit | app/slt-energies/contact/page.tsx:55-87 | exactly one send is made, with the flag up. On success the record is reset and the success notification raised; on failure the record is kept and the error notification raised. The flag is down afterwards either way |
| GeneralContact.BlankForm | app/contact/page.tsx:30-38 | the initial and reset record has exactly the keys name, email, phone, subject, message, interest and time, with the text fields empty and time set to the given date |
| GeneralContact.ThemeLogo | app/contact/page.tsx:41-47 | the effect's logo is the dark path exactly when the theme is "dark", and the light path otherwise |
| GeneralContact.GeneralContactForm.constructor | app/contact/page.tsx:27-39 | the page starts with logo "/placeholder.svg", the blank record, the flag down and nothing sent or notified |
| GeneralContact.GeneralContactForm.ThemeEffect | app/contact/page.tsx:41-47 | after the theme effect the logo is ThemeLogo of the theme, and nothing else changes |
| GeneralContact.GeneralContactForm.HeaderLogo | app/contact/page.tsx:93-98 | the header image shows the stored logo path, never substituted, because that path is never empty |
| GeneralContact.GeneralContactForm.Button | app/contact/page.tsx:231-232 | the button is disabled while submitting, labelled "Sending..." then and "Send Message" otherwise |
| GeneralContact.GeneralContactForm.HandleChange | app/contact/page.tsx:49-54 | the field named by the event's `name` becomes the event's value, and nothing else changes |
| GeneralContact.GeneralContactForm.HandleSelectChange | app/contact/page.tsx:56-58 | field `name` becomes `value`, and nothing else changes |
| GeneralContact.GeneralContactForm.SendForm | app/contact/page.tsx:64-70 | one send with the general template is logged together with the flag's value at the call, and nothing else changes |
| GeneralContact.GeneralContactForm.HandleSubmit | app/contact/page.tsx:60-87 | exactly one send is made, with the flag up. On success all six text fields are reset and "Message sent successfully!" is raised; on failure the record is kept and the error notification raised. The flag is down afterwards and the logo is unchanged |

## Left out

- All JSX layout, styling and static content (service, team, project and statistics lists, branch icons, colours, descriptions and feature lists). They are presentation with no behaviour.
- The one-line theme-to-logo choices on the landing and project pages. They follow the same pattern as `EnergiesContact.LogoSrc`.
- The framer-motion animation, including the carousel offset `-currentIndex * 66.666%`. It is floating point and presentation only.
- `scrollToSection` on the landing pages. It is DOM access and scrolling.
- What `emailjs.sendForm` sends and how it delivers it. It is a third-party network call that reads the DOM form, not `formData`, so only its two outcomes are modelled.
- The values of the deployment configuration variables. Only their names are recorded in each send.
- `console.error` on a failed send, which is diagnostic output only.
- `sonner` notification rendering. Only the kind, title and description of each notification are kept.
- The browser's native validation of `required` fields. It runs in the browser before the submit handler and is not code of this site.
- Theme resolution by `next-themes`. It is a foreign library, and the theme enters as a parameter.
- React scheduling, re-rendering and the asynchronous suspension inside `handleSubmit`. Each handler is modelled as one sequential method, so no other event can run during a submit.
