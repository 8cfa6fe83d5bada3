/** The error maps every form keeps beside its data. Each form names its
    fields by an enumeration whose `Name()` is the input's `name` attribute,
    and its messages by an enumeration whose `Text()` is the wording shown. */
module FormState {
  import opened Wrappers

  /** A value of an error map: a message, or the `''` an edit handler leaves
      behind when it clears one. */
  datatype Note<M> = Cleared | Says(message: M)

  /** `errors[name]` is truthy: the key is present with a message. */
  predicate Shown<K(==), M>(m: map<K, Note<M>>, key: K) {
    key in m && m[key].Says?
  }

  /** The edit handlers' `if (errors[name]) setErrors({ ...prev, [name]: '' })`:
      the edited field's message disappears, the key stays, and every other
      message is left as it was. */
  function ClearOnEdit<K(==), M>(m: map<K, Note<M>>, key: K): (r: map<K, Note<M>>)
    ensures !Shown(r, key)
    ensures r.Keys == m.Keys
    ensures forall k :: k in m && k != key ==> r[k] == m[k]
    ensures !Shown(m, key) ==> r == m
  {
    if Shown(m, key) then m[key := Cleared] else m
  }

  /** Clearing never makes a message appear, and hides only the edited one. */
  lemma ClearOnEditShown<K, M>(m: map<K, Note<M>>, key: K, k: K)
    ensures Shown(ClearOnEdit(m, key), k) <==> k != key && Shown(m, k)
  {
  }

  /** `if (problem) newErrors[key] = problem`: one check's outcome recorded. */
  function Put<K(==), M>(m: map<K, Note<M>>, key: K, problem: Option<M>): (r: map<K, Note<M>>)
    ensures problem.Some? ==> r == m[key := Says(problem.value)]
    ensures problem.None? ==> r == m
  {
    if problem.Some? then m[key := Says(problem.value)] else m
  }

  /** A freshly built map: every key present holds a message. */
  predicate AllMessages<K(==), M>(m: map<K, Note<M>>) {
    forall k :: k in m ==> m[k].Says?
  }
}
