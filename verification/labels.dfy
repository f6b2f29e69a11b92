/** The label registry: an insertion-ordered list of distinct label names. */
module Labels {
  import opened Outcomes

  /** The one label the registry starts with. */
  const NotDefined: string := "Not Defined"

  /** The text the label window's drop-down shows before anything is chosen. */
  const Placeholder: string := "Select Label"

  const Initial: seq<string> := [NotDefined]

  predicate Distinct(ls: seq<string>)
  {
    forall i, j :: 0 <= i < j < |ls| ==> ls[i] != ls[j]
  }

  /** The prompt answered with a non-empty name that is not registered yet. */
  predicate Accepts(ls: seq<string>, input: Option<string>)
  {
    input.Some? && input.value != "" && input.value !in ls
  }

  /**
   Adding a label: `input` is the prompt's answer, None when it was cancelled.
   A cancelled prompt, an empty name or a registered name leaves the list as it is.
   */
  function Add(ls: seq<string>, input: Option<string>): (r: seq<string>)
    ensures ls <= r && |r| <= |ls| + 1
    ensures |r| == |ls| + 1 <==> Accepts(ls, input)
    ensures input.Some? && input.value != "" ==> input.value in r
    ensures forall n :: n in r ==> n in ls || input == Some(n)
    ensures Distinct(ls) ==> Distinct(r)
  {
    if Accepts(ls, input) then ls + [input.value] else ls
  }
}
