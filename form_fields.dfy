/**
 * The flat forms of the marketing site's contact page and quote dialog: an
 * object from field name to text that `{ ...prev, [name]: value }` updates,
 * and the truthiness test of its required fields.
 */
module FormFields {
  import opened Wrappers

  type Fields = map<string, string>

  /** A list kept in local storage as `JSON.parse(getItem(key) || '[]')` reads it: an absent key is the empty list. */
  function StoredList<T>(stored: Option<seq<T>>): (r: seq<T>)
    ensures stored.None? ==> r == []
    ensures stored.Some? ==> r == stored.value
  {
    stored.GetOr([])
  }

  /** `{ ...prev, [name]: value }`: only the named field changes. */
  function SetField(form: Fields, name: string, value: string): (r: Fields)
    ensures r.Keys == form.Keys + {name}
    ensures r[name] == value
    ensures forall k :: k in form && k != name ==> r[k] == form[k]
  {
    form[name := value]
  }

  /** `!!form[name]`: present and not empty. */
  predicate Filled(form: Fields, name: string) {
    name in form && form[name] != ""
  }

  /** Setting a field to a non-empty text fills it and leaves the others' state as it was. */
  lemma SetFieldFills(form: Fields, name: string, value: string, other: string)
    requires value != "" && other != name
    ensures Filled(SetField(form, name, value), name)
    ensures Filled(SetField(form, name, value), other) <==> Filled(form, other)
  {
  }
}
