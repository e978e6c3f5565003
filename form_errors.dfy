/** The per-field error dictionaries (`Record<string, string>`) of the sign-up and event forms,
    keyed by each form's own field names. */
module FormErrors {
  import opened Wrappers

  type Errors<K> = map<K, string>

  /** The error step of `updateField`: when `field` has a message shown (a non-empty string) it is
      blanked to `''`; nothing else changes and no key is added or removed. */
  function ClearShownError<K(!new)>(errors: Errors<K>, field: K): (r: Errors<K>)
    ensures r.Keys == errors.Keys
    ensures field in errors && errors[field] != "" ==> r[field] == ""
    ensures forall k :: k in errors && k != field ==> r[k] == errors[k]
    ensures field in errors && errors[field] == "" ==> r == errors
    ensures field !in errors ==> r == errors
  {
    if field in errors && errors[field] != "" then errors[field := ""] else errors
  }

  /** A rule that only asks for presence: its message exactly when the value is missing. */
  function RequiredError(missing: bool, message: string): (e: Option<string>)
    ensures e.Some? <==> missing
    ensures e.Some? ==> e.value == message
  {
    if missing then Some(message) else None
  }

  /** `Object.keys(newErrors).length === 0`. */
  lemma EmptyIffNoKeys<K>(errors: Errors<K>)
    ensures |errors| == 0 <==> errors == map[]
  {
    if |errors| == 0 {
      assert errors.Keys == {};
    }
  }
}
