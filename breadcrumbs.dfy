/** The "Displaying data for: ..." line that summarises the current hierarchy selection. */
module Breadcrumbs {
  import opened Collections
  import opened Dataset

  const AllData: string := "All Data"

  /** `[chosen]` when something is chosen in the list, `[]` otherwise. */
  function IfChosen(chosen: seq<string>): seq<seq<string>> {
    if chosen == [] then [] else [chosen]
  }

  /** The non-empty selection lists, outermost level first. */
  function ChosenLists(s: Selection): (lists: seq<seq<string>>)
    ensures forall l :: l in lists ==> l != [] && (l == s.province || l == s.division || l == s.district || l == s.tehsil)
  {
    IfChosen(s.province) + IfChosen(s.division) + IfChosen(s.district) + IfChosen(s.tehsil)
  }

  /** `[chosen]` rendered as its values separated by ", ", or nothing when the list is empty. */
  function CrumbIf(chosen: seq<string>): seq<string> {
    if chosen == [] then [] else [Join(chosen, ", ")]
  }

  /** One crumb per non-empty list, outermost level first. */
  function Crumbs(s: Selection): seq<string> {
    CrumbIf(s.province) + CrumbIf(s.division) + CrumbIf(s.district) + CrumbIf(s.tehsil)
  }

  /** The crumbs are the chosen lists, each comma-joined. */
  lemma CrumbsJoinChosenLists(s: Selection)
    ensures |Crumbs(s)| == |ChosenLists(s)|
    ensures forall i :: 0 <= i < |Crumbs(s)| ==> Crumbs(s)[i] == Join(ChosenLists(s)[i], ", ")
  {
  }

  /** The breadcrumb: the crumbs separated by " > ", or "All Data" when there are none. */
  function BreadcrumbText(s: Selection): (text: string)
    ensures NothingChosen(s) ==> text == AllData
    ensures s.province != [] ==> Join(s.province, ", ") <= text
  {
    var crumbs := Crumbs(s);
    if crumbs == [] then AllData else Join(crumbs, " > ")
  }

  /** Builds the breadcrumb by appending one comma-joined entry per non-empty list. */
  method BuildBreadcrumb(s: Selection) returns (text: string)
    ensures text == BreadcrumbText(s)
  {
    var breadcrumb: seq<string> := [];
    if s.province != [] {
      breadcrumb := breadcrumb + [Join(s.province, ", ")];
    }
    assert breadcrumb == CrumbIf(s.province);
    if s.division != [] {
      breadcrumb := breadcrumb + [Join(s.division, ", ")];
    }
    assert breadcrumb == CrumbIf(s.province) + CrumbIf(s.division);
    if s.district != [] {
      breadcrumb := breadcrumb + [Join(s.district, ", ")];
    }
    assert breadcrumb == CrumbIf(s.province) + CrumbIf(s.division) + CrumbIf(s.district);
    if s.tehsil != [] {
      breadcrumb := breadcrumb + [Join(s.tehsil, ", ")];
    }
    assert breadcrumb == Crumbs(s);
    text := if breadcrumb != [] then Join(breadcrumb, " > ") else AllData;
  }

  predicate NothingChosen(s: Selection) {
    s.province == [] && s.division == [] && s.district == [] && s.tehsil == []
  }

  /**
   * The breadcrumb reads "All Data" exactly when nothing is chosen, or when the only
   * non-empty list is the single value "All Data" itself.
   */
  lemma AllDataExactly(s: Selection)
    ensures BreadcrumbText(s) == AllData <==> NothingChosen(s) || ChosenLists(s) == [[AllData]]
  {
    var lists := ChosenLists(s);
    var crumbs := Crumbs(s);
    CrumbsJoinChosenLists(s);
    assert NothingChosen(s) <==> lists == [];
    if |crumbs| >= 2 {
      JoinShowsSeparator(crumbs, " > ", '>');
      assert '>' !in AllData;
    } else if |crumbs| == 1 {
      var only := lists[0];
      assert only in lists;
      assert only != [];
      assert Join(crumbs, " > ") == crumbs[0] == Join(only, ", ");
      if |only| >= 2 {
        JoinShowsSeparator(only, ", ", ',');
        assert ',' !in AllData;
      } else {
        assert only == [only[0]];
      }
    }
  }

  /** As long as no chosen value is literally "All Data", the fallback text means "nothing chosen". */
  lemma AllDataMeansNothingChosen(s: Selection)
    requires AllData !in s.province && AllData !in s.division
    requires AllData !in s.district && AllData !in s.tehsil
    ensures BreadcrumbText(s) == AllData <==> NothingChosen(s)
  {
    AllDataExactly(s);
    assert forall l :: l in ChosenLists(s) ==> AllData !in l;
    assert AllData in [AllData];
  }

  /** The crumbs follow the hierarchy order; for example a province pair and one division. */
  lemma BreadcrumbExample()
    ensures BreadcrumbText(Selection(["Punjab", "Sindh"], ["Lahore"], [], [])) == "Punjab, Sindh > Lahore"
  {
    var s := Selection(["Punjab", "Sindh"], ["Lahore"], [], []);
    assert ["Punjab", "Sindh"][1..] == ["Sindh"];
    assert Join(["Punjab", "Sindh"], ", ") == "Punjab, Sindh";
    assert Crumbs(s) == ["Punjab, Sindh", "Lahore"];
    assert ["Punjab, Sindh", "Lahore"][1..] == ["Lahore"];
  }
}
