/** The field-keyed error dictionaries of the forms (`errors` state, `newErrors`), over
    each form's own type of field names. */
module FormErrors {
  import opened Wrappers

  type Errors<K> = map<K, string>

  /** `errors[name]` is truthy: present and not the empty string. */
  predicate HasError<K>(errs: Errors<K>, name: K) {
    name in errs && errs[name] != ""
  }

  /** `if (errors[name]) setErrors(prev => ({...prev, [name]: ''}))`: a field's error is
      blanked when it is shown, and the dictionary is otherwise left as it is. */
  function ClearError<K>(errs: Errors<K>, name: K): (r: Errors<K>)
    ensures !HasError(r, name)
    ensures r.Keys == errs.Keys
    ensures forall k :: k in errs && k != name ==> r[k] == errs[k]
    ensures HasError(errs, name) ==> r[name] == ""
    ensures !HasError(errs, name) ==> r == errs
  {
    if HasError(errs, name) then errs[name := ""] else errs
  }

  /** `if (error) newErrors[name] = error`: records a failing rule's message. */
  function Put<K>(errs: Errors<K>, name: K, e: Option<string>): (r: Errors<K>)
  {
    if e.Some? then errs[name := e.value] else errs
  }
}
