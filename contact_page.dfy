/**
 * The contact page's form (pages/ContactPage.tsx): field updates, and the
 * submit that appends the message to the `contactSubmissions` list kept in
 * local storage and empties the form. The stored list is held decoded; an
 * absent key reads as the empty list.
 */
module ContactPage {
  import opened Wrappers
  import opened FormFields

  /** A stored message: the form's fields with the submission time as `id`. */
  datatype ContactSubmission = ContactSubmission(fields: Fields, id: int)

  function EmptyContactForm(): Fields {
    map["name" := "", "email" := "", "message" := ""]
  }

  predicate ContactComplete(form: Fields) {
    Filled(form, "name") && Filled(form, "email") && Filled(form, "message")
  }

  datatype Toast = Toast(title: string, destructive: bool)

  class ContactForm {
    var form: Fields
    /** The `contactSubmissions` entry of local storage; `None` when it is absent. */
    var stored: Option<seq<ContactSubmission>>
    var toasts: seq<Toast>

    constructor (stored: Option<seq<ContactSubmission>>)
      ensures form == EmptyContactForm() && this.stored == stored && toasts == []
      ensures !ContactComplete(form)
    {
      form := EmptyContactForm();
      this.stored := stored;
      toasts := [];
    }


    method Change(name: string, value: string)
      modifies this
      ensures form == SetField(old(form), name, value)
      ensures stored == old(stored) && toasts == old(toasts)
    {
      form := SetField(form, name, value);
    }

    /**
     * `handleSubmit`: with the name, e-mail or message empty an error is
     * shown and nothing changes; otherwise the form with the time as `id`
     * is appended to the stored list, kept after the earlier entries, and
     * the form is emptied.
     */
    method Submit(now: int)
      modifies this
      ensures !ContactComplete(old(form)) ==>
        form == old(form) && stored == old(stored) && toasts == old(toasts) + [Toast("Please fill in all required fields", true)]
      ensures ContactComplete(old(form)) ==>
        (&& stored == Some(old(StoredList(stored)) + [ContactSubmission(old(form), now)])
         && form == EmptyContactForm()
         && toasts == old(toasts) + [Toast("✅ Message sent successfully!", false)])
      ensures ContactComplete(old(form)) ==>
        |StoredList(stored)| == |old(StoredList(stored))| + 1 && StoredList(stored)[..|old(StoredList(stored))|] == old(StoredList(stored))
    {
      if !ContactComplete(form) {
        toasts := toasts + [Toast("Please fill in all required fields", true)];
        return;
      }
      var submissions := StoredList(stored);
      submissions := submissions + [ContactSubmission(form, now)];
      stored := Some(submissions);
      toasts := toasts + [Toast("✅ Message sent successfully!", false)];
      form := EmptyContactForm();
    }
  }
}
