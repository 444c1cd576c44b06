/**
 * The key/value pairs handed to `urlencode`. The encoder itself is standard
 * library behaviour and stays abstract: the client receives it as a function.
 */
module Forms {
  import opened Wrappers

  /** A form value: an integer, a string, or a list of integers (flattened when `doseq` is set). */
  datatype FormValue = Int(i: int) | Str(s: string) | IntList(items: seq<int>)

  /** Pairs in the order the source's dictionary literal lists them. */
  type Form = seq<(string, FormValue)>

  /** The encoder: `urlencode(form, doseq)`. */
  type Encoder = (Form, bool) -> string

  /** The value of the first pair named `key`, if any. */
  function FormGet(form: Form, key: string): (r: Option<FormValue>)
    ensures r.None? <==> forall i :: 0 <= i < |form| ==> form[i].0 != key
    ensures r.Some? ==> exists i :: 0 <= i < |form| && form[i] == (key, r.value)
  {
    if form == [] then None
    else if form[0].0 == key then Some(form[0].1)
    else FormGet(form[1..], key)
  }

  /** No name occurs twice, as in a dictionary. */
  predicate DistinctKeys(form: Form) {
    forall i, j :: 0 <= i < j < |form| ==> form[i].0 != form[j].0
  }

  /** In a form without repeated names, each pair is what a lookup of its name finds. */
  lemma FormGetDistinct(form: Form, i: nat)
    requires DistinctKeys(form) && i < |form|
    ensures FormGet(form, form[i].0) == Some(form[i].1)
  {
  }
}
