/** The experience section: six fixed records, of which the first four are
    shown until the reveal button is pressed. */
module Experience {
  import Text
  import Reveal

  /** An experience record, reduced to its list key and the two headline fields. */
  datatype Position = Position(id: nat, title: string, company: string)

  const RevealLimit: nat := 4

  const AllExperiences: seq<Position> := [
    Position(1, "Senior Full Stack Developer", "TechCorp Solutions"),
    Position(2, "Full Stack Developer", "Digital Innovation Lab"),
    Position(3, "Frontend Developer", "StartupXYZ"),
    Position(4, "Junior Web Developer", "WebFlow Agency"),
    Position(5, "Software Engineering Intern", "InnovateTech"),
    Position(6, "Web Development Freelancer", "Self-Employed")
  ]

  /** The label of the reveal button. */
  function ButtonLabel(showAll: bool): string {
    if showAll then "Show Less"
    else "View All " + Text.DecimalString(|AllExperiences|) + " Experiences"
  }

  /** The records are rendered with their `id` as list key, so the ids must be distinct. */
  lemma IdsDistinct()
    ensures forall i, j :: 0 <= i < j < |AllExperiences| ==> AllExperiences[i].id != AllExperiences[j].id
  {
  }

  /** The reveal state of the section: `showAll`. */
  class ExperienceView {
    var showAll: bool

    constructor ()
      ensures !showAll
    {
      showAll := false;
    }

    /** `displayedExperiences`: the first four records in order, or all six. */
    function DisplayedExperiences(): (r: seq<Position>)
      reads this
      ensures r <= AllExperiences
      ensures |r| == if showAll then 6 else 4
    {
      Reveal.Shown(AllExperiences, RevealLimit, showAll)
    }

    /** The button is rendered when there are more than four records, which the fixed data has. */
    function ButtonVisible(): (b: bool)
      reads this
      ensures b
    {
      Reveal.ToggleVisible(AllExperiences, RevealLimit)
    }

    /** "Show Less" while everything is shown, otherwise "View All 6 Experiences". */
    function Label(): (s: string)
      reads this
      ensures s == if showAll then "Show Less" else "View All 6 Experiences"
    {
      assert Text.DecimalString(6) == "6";
      ButtonLabel(showAll)
    }

    /** The click handler of the reveal button. */
    method ToggleShowAll()
      requires ButtonVisible()
      modifies this
      ensures showAll == !old(showAll)
    {
      showAll := !showAll;
    }
  }

  /** Pressing the reveal button twice restores the same records. */
  method ToggleTwiceRestores(view: ExperienceView)
    modifies view
    ensures view.showAll == old(view.showAll)
    ensures view.DisplayedExperiences() == old(view.DisplayedExperiences())
  {
    view.ToggleShowAll();
    view.ToggleShowAll();
  }
}
