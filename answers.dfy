/**
 * The answer set a session collects: question id to the value the client sent.
 * Single-choice questions are answered with a string, the multiple-choice
 * `source_material` question with a list of strings; any other JSON value is `Other`.
 */
module Answers {
  import opened Wrappers
  import opened Strings

  datatype Answer = Text(text: string) | Choices(items: seq<string>) | Other

  type Answers = map<string, Answer>

  /**
   * `answers.get(key, default)` where the caller goes on to use the value as a
   * string.  `None` when the stored value is not a string: the string method the
   * source applies to it raises.
   */
  function TextAnswer(a: Answers, key: string, default: string): (r: Option<string>)
    ensures key !in a ==> r == Some(default)
    ensures r.Some? <==> key !in a || a[key].Text?
  {
    if key !in a then Some(default)
    else if a[key].Text? then Some(a[key].text)
    else None
  }

  /** Every key of `keys` that is present holds a string. */
  predicate TextAt(a: Answers, keys: seq<string>)
  {
    forall k :: k in keys && k in a ==> a[k].Text?
  }

  lemma {:induction false} TextAtGives(a: Answers, keys: seq<string>, key: string, default: string)
    requires TextAt(a, keys) && key in keys
    ensures TextAnswer(a, key, default).Some?
  {
  }

  /** `answers.get(key, default)` */
  function Get(a: Answers, key: string, default: Answer): (r: Answer)
    ensures key in a ==> r == a[key]
    ensures key !in a ==> r == default
  {
    if key in a then a[key] else default
  }

  /**
   * Python's `word in value` on an answer: a substring test on a string, an
   * element test on a list; `None` where the test raises.
   */
  function Has(a: Answer, word: string): (r: Option<bool>)
    ensures r.None? <==> a.Other?
    ensures a.Text? ==> r == Some(Contains(a.text, word))
    ensures a.Choices? ==> r == Some(word in a.items)
  {
    match a
    case Text(t) => Some(Contains(t, word))
    case Choices(items) => Some(word in items)
    case Other => None
  }
}
