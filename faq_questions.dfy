/** The frequently-asked-questions list: clicking a question opens its answer and closes any
    other. */
module FaqQuestions {
  import opened Wrappers
  import opened Accordion

  const OpenIndicator := "\U{2212}"
  const ClosedIndicator := "+"

  class FaqList {
    var openIndex: Option<nat>

    constructor ()
      ensures openIndex == None
    {
      openIndex := None;
    }

    /** Whether the answer under question `i` is expanded. */
    predicate Expanded(i: nat)
      reads this
    {
      IsOpen(openIndex, i)
    }

    /** The sign beside question `i`: a minus sign while its answer is expanded, a plus otherwise. */
    function Indicator(i: nat): (s: string)
      reads this
      ensures s == OpenIndicator <==> Expanded(i)
      ensures s == ClosedIndicator <==> !Expanded(i)
    {
      if openIndex == Some(i) then OpenIndicator else ClosedIndicator
    }

    /** A click on question `index`: it closes when it was the open one and opens otherwise. */
    method ToggleFaq(index: nat)
      modifies this
      ensures openIndex == Toggle(old(openIndex), index)
      ensures forall j :: Expanded(j) <==> j == index && !old(Expanded(index))
    {
      ToggleOpens(openIndex, index, index);
      openIndex := if openIndex == Some(index) then None else Some(index);
    }
  }

  /** At most one answer is expanded at a time. */
  lemma AtMostOneExpanded(faq: FaqList, i: nat, j: nat)
    requires faq.Expanded(i) && faq.Expanded(j)
    ensures i == j
  {
  }
}
