/** Small shared datatypes: an optional value and the outcome of an awaited service call. */
module Common {

  datatype Option<+T> = None | Some(value: T)

  /**
   * What an awaited call into the AI service produced: it either resolved to a value
   * (possibly null/undefined, here `None`) or it threw. A thrown `Error` carries its
   * message (`Some(message)`); anything else that is thrown carries none.
   */
  datatype ServiceResult<+R> = Resolved(result: Option<R>) | Threw(message: Option<string>)

  /** The message a `catch (error)` block shows: `error.message` for an `Error`, else the fallback. */
  function CaughtMessage(thrown: Option<string>, fallback: string): (m: string)
    ensures thrown.Some? ==> m == thrown.value
    ensures thrown.None? ==> m == fallback
  {
    match thrown
    case Some(msg) => msg
    case None => fallback
  }

  /** The text colour classes the analyzer pages give a score, worst to best. */
  const TextRed := "text-red-500"
  const TextYellow := "text-yellow-500"
  const TextGreen := "text-green-500"

  /** The place of a score colour in the order red, yellow, green. */
  function ColorRank(c: string): nat {
    if c == TextGreen then 2 else if c == TextYellow then 1 else 0
  }

  /**
   * The state of an accordion with at most one open section: clicking `section`
   * closes it when it is the open one and opens it otherwise.
   */
  function ToggleSection(current: Option<string>, section: string): (next: Option<string>)
    ensures next == Some(section) <==> current != Some(section)
    ensures next != Some(section) ==> next == None
  {
    if current == Some(section) then None else Some(section)
  }

  lemma {:induction false} ToggleSectionTwice(current: Option<string>, section: string)
    requires current == None || current == Some(section)
    ensures ToggleSection(ToggleSection(current, section), section) == current
  {
    if current == None {
      assert ToggleSection(current, section) == Some(section);
    } else {
      assert ToggleSection(current, section) == None;
    }
  }
}
