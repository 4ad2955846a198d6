/**
 * The quote-request dialog (components/QuoteModal.tsx): a form prefilled
 * for one product, field updates, and the submit that appends a request to
 * the `quoteRequests` list kept in local storage and closes the dialog.
 * The stored list is held decoded; an absent key reads as the empty list.
 */
module QuoteModal {
  import opened Wrappers
  import opened FormFields

  /** A stored request: the form's fields, the product's name, and the submission time as `id` and `timestamp`. */
  datatype QuoteRequest = QuoteRequest(fields: Fields, productName: string, id: int, timestamp: int)

  /** The opening form: empty contact fields, a quantity of 10 and a message naming the product. */
  function InitialQuoteForm(productName: string): (r: Fields)
    ensures r.Keys == {"name", "email", "company", "quantity", "message"}
    ensures r["name"] == "" && r["email"] == "" && r["company"] == "" && r["quantity"] == "10"
    ensures r["message"] == "I'm interested in a quote for " + productName + "."
  {
    map["name" := "", "email" := "", "company" := "", "quantity" := "10",
        "message" := "I'm interested in a quote for " + productName + "."]
  }

  predicate QuoteComplete(form: Fields) {
    Filled(form, "name") && Filled(form, "email") && Filled(form, "quantity")
  }

  /** The opening form only lacks the name and the e-mail. */
  lemma OpeningFormNeedsContact(productName: string, name: string, email: string)
    requires name != "" && email != ""
    ensures !QuoteComplete(InitialQuoteForm(productName))
    ensures QuoteComplete(SetField(SetField(InitialQuoteForm(productName), "name", name), "email", email))
  {
  }

  datatype Toast = Toast(title: string, destructive: bool)

  class QuoteDialog {
    const productName: string
    var form: Fields
    var stored: Option<seq<QuoteRequest>>
    var toasts: seq<Toast>
    var closeRequested: bool

    constructor (productName: string, stored: Option<seq<QuoteRequest>>)
      ensures this.productName == productName && form == InitialQuoteForm(productName)
      ensures this.stored == stored && toasts == [] && !closeRequested
    {
      this.productName := productName;
      form := InitialQuoteForm(productName);
      this.stored := stored;
      toasts := [];
      closeRequested := false;
    }


    method Change(name: string, value: string)
      modifies this
      ensures form == SetField(old(form), name, value)
      ensures stored == old(stored) && toasts == old(toasts) && closeRequested == old(closeRequested)
    {
      form := SetField(form, name, value);
    }

    /**
     * `handleSubmit`: with the name, e-mail or quantity empty an error is
     * shown and nothing is stored; otherwise the request is appended after
     * the earlier ones and the dialog asks to close. The form is kept.
     */
    method Submit(now: int)
      modifies this
      ensures form == old(form)
      ensures !QuoteComplete(old(form)) ==>
        (&& stored == old(stored) && closeRequested == old(closeRequested)
         && toasts == old(toasts) + [Toast("Please fill in all required fields.", true)])
      ensures QuoteComplete(old(form)) ==>
        (&& stored == Some(old(StoredList(stored)) + [QuoteRequest(form, productName, now, now)])
         && closeRequested
         && toasts == old(toasts) + [Toast("Quote Request Sent!", false)])
      ensures QuoteComplete(old(form)) ==>
        |StoredList(stored)| == |old(StoredList(stored))| + 1 && StoredList(stored)[..|old(StoredList(stored))|] == old(StoredList(stored))
    {
      if !QuoteComplete(form) {
        toasts := toasts + [Toast("Please fill in all required fields.", true)];
        return;
      }
      var requests := StoredList(stored) + [QuoteRequest(form, productName, now, now)];
      stored := Some(requests);
      toasts := toasts + [Toast("Quote Request Sent!", false)];
      closeRequested := true;
    }
  }
}
