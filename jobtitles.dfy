/**
  The job-title classifier of the Sankey diagram: a static table from six
  group names to lists of exact job titles, searched group by group in
  declaration order, with "Other" as the fallback.
 */
module JobTitles {

  datatype Option<T> = None | Some(value: T)

  /** One entry of the table: a group name and the exact titles it collects. */
  datatype TitleGroup = TitleGroup(name: string, titles: seq<string>)

  /** The group returned for a title that no list contains. */
  const Fallback: string := "Other"

  /** The classification table, in declaration order. */
  const JobTitleGroups: seq<TitleGroup> := [
    TitleGroup("Engineer", ["Data Engineer", "Machine Learning Engineer", "Software Engineer", "ML Engineer",
                            "Platform Engineer", "Backend Engineer", "Frontend Engineer"]),
    TitleGroup("Analyst", ["Data Analyst", "Business Analyst", "Research Analyst", "Marketing Analyst"]),
    TitleGroup("Scientist", ["Data Scientist", "ML Scientist", "Research Scientist", "AI Scientist"]),
    TitleGroup("Manager", ["Engineering Manager", "Product Manager", "Project Manager", "Data Manager",
                           "Analytics Manager"]),
    TitleGroup("Consultant", ["Data Consultant", "Analytics Consultant", "Business Consultant"]),
    TitleGroup("Other", ["Data Architect", "Statistician", "Quantitative Researcher", "BI Developer",
                         "Data Specialist"])
  ]

  /** The six group names, the only values the classifier can return. */
  const GroupKeys: seq<string> := ["Engineer", "Analyst", "Scientist", "Manager", "Consultant", "Other"]

  /** Group `i` is the first group of `table` whose list contains `title`. */
  predicate FirstContaining(table: seq<TitleGroup>, title: string, i: int) {
    && 0 <= i < |table|
    && title in table[i].titles
    && forall j :: 0 <= j < i ==> title !in table[j].titles
  }

  /**
    The scan over the table's entries with an early return: the index of the
    first group whose list holds `title` exactly, or None when no list does.
   */
  function FindGroup(table: seq<TitleGroup>, title: string): (r: Option<nat>)
    ensures r.Some? ==> FirstContaining(table, title, r.value)
    ensures r.None? <==> forall j :: 0 <= j < |table| ==> title !in table[j].titles
  {
    if table == [] then None
    else if title in table[0].titles then Some(0)
    else match FindGroup(table[1..], title)
      case None => None
      case Some(k) => Some(k + 1)
  }

  /** `mapJobTitle`: the group of a job title, "Other" when it is in no list. */
  function MapJobTitle(title: string): (r: string)
    ensures r in GroupKeys
    ensures forall i :: FirstContaining(JobTitleGroups, title, i) ==> r == JobTitleGroups[i].name
    ensures (forall i :: 0 <= i < |JobTitleGroups| ==> title !in JobTitleGroups[i].titles) ==> r == Fallback
  {
    match FindGroup(JobTitleGroups, title)
    case Some(i) => JobTitleGroups[i].name
    case None => Fallback
  }

  /** The table's entries are declared in the order of `GroupKeys`. */
  lemma TableOrder()
    ensures |JobTitleGroups| == |GroupKeys|
    ensures forall i :: 0 <= i < |GroupKeys| ==> JobTitleGroups[i].name == GroupKeys[i]
  {
  }

  /** No title is listed under two groups. */
  lemma ListsDisjoint()
    ensures forall i, j, t :: 0 <= i < j < |JobTitleGroups| && t in JobTitleGroups[i].titles ==>
      t !in JobTitleGroups[j].titles
  {
  }

  /** Every title of a group's list is classified into that group. */
  lemma ListedTitleMapsToItsGroup(i: nat, title: string)
    requires i < |JobTitleGroups| && title in JobTitleGroups[i].titles
    ensures MapJobTitle(title) == JobTitleGroups[i].name
  {
    ListsDisjoint();
    assert FirstContaining(JobTitleGroups, title, i);
  }

  /** A listed title is classified into its group. */
  lemma ClassifierListedExample()
    ensures MapJobTitle("Data Scientist") == "Scientist"
  {
    ListedTitleMapsToItsGroup(2, "Data Scientist");
  }

  /** Matching is case-sensitive: the lower-case spelling of a listed title falls back. */
  lemma ClassifierCaseSensitiveExample()
    ensures MapJobTitle("data scientist") == Fallback
  {
    var title := "data scientist";
    assert title !in JobTitleGroups[0].titles;
    assert title !in JobTitleGroups[1].titles;
    assert title !in JobTitleGroups[2].titles;
    assert title !in JobTitleGroups[3].titles;
    assert title !in JobTitleGroups[4].titles;
    assert title !in JobTitleGroups[5].titles;
  }

  /** A title no list holds falls back. */
  lemma ClassifierUnknownExample()
    ensures MapJobTitle("Mystery Title") == Fallback
  {
    var title := "Mystery Title";
    assert title !in JobTitleGroups[0].titles;
    assert title !in JobTitleGroups[1].titles;
    assert title !in JobTitleGroups[2].titles;
    assert title !in JobTitleGroups[3].titles;
    assert title !in JobTitleGroups[4].titles;
    assert title !in JobTitleGroups[5].titles;
  }
}
