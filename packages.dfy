/** The two package cards, standard and custom, each an accordion of feature sections with its
    own open slot. */
module Packages {
  import opened Wrappers
  import opened Accordion

  const StandardPackage := "standard"

  const OpenIndicator := "-"
  const ClosedIndicator := "+"

  /** The sign beside a feature title: a hyphen while its items are listed, a plus otherwise. */
  function Indicator(openSection: Option<nat>, index: nat): (s: string)
    ensures s == OpenIndicator <==> IsOpen(openSection, index)
    ensures s == ClosedIndicator <==> !IsOpen(openSection, index)
  {
    if openSection == Some(index) then OpenIndicator else ClosedIndicator
  }

  class PackageCards {
    var openSectionStandard: Option<nat>
    var openSectionCustom: Option<nat>

    constructor ()
      ensures openSectionStandard == None && openSectionCustom == None
    {
      openSectionStandard := None;
      openSectionCustom := None;
    }

    /** A click on feature `index` of a card: the standard card's slot is toggled for
        "standard", the custom card's slot for any other package name; the other slot is kept. */
    method ToggleSection(packageType: string, index: nat)
      modifies this
      ensures packageType == StandardPackage ==>
        openSectionStandard == Toggle(old(openSectionStandard), index) && openSectionCustom == old(openSectionCustom)
      ensures packageType != StandardPackage ==>
        openSectionCustom == Toggle(old(openSectionCustom), index) && openSectionStandard == old(openSectionStandard)
    {
      if packageType == StandardPackage {
        openSectionStandard := if openSectionStandard == Some(index) then None else Some(index);
      } else {
        openSectionCustom := if openSectionCustom == Some(index) then None else Some(index);
      }
    }
  }
}
