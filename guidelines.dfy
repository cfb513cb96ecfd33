/** The `get_page_guidelines` tool: which top-level sections of
    `PAGE_GUIDELINES` a category selects. The sections' contents and their
    JSON rendering are not modelled; a reply is the heading line and the keys
    of the selected sections, in order. */
module Guidelines {

  /** The top-level sections of `PAGE_GUIDELINES`. */
  datatype Section = HeaderConfig | ApiGuidelines | ComponentGuidelines | HookGuidelines

  /** The key a section is stored under. */
  function Key(s: Section): string {
    match s
    case HeaderConfig => "headerConfig"
    case ApiGuidelines => "apiGuidelines"
    case ComponentGuidelines => "componentGuidelines"
    case HookGuidelines => "hookGuidelines"
  }

  /** The category that selects a section on its own. */
  function Category(s: Section): string {
    match s
    case HeaderConfig => "header"
    case ApiGuidelines => "api"
    case ComponentGuidelines => "component"
    case HookGuidelines => "hook"
  }

  /** All four sections, in the order the table declares them. */
  const AllSections: seq<Section> := [HeaderConfig, ApiGuidelines, ComponentGuidelines, HookGuidelines]

  const Heading := "# Jingle Frontend 页面开发规范\n\n"

  /** A category names one section and selects it alone; anything else
      (`"all"`, the default, among them) selects the whole table. */
  function Select(category: string): (r: seq<Section>)
    ensures (exists s :: Category(s) == category) ==> |r| == 1 && Category(r[0]) == category
    ensures (forall s :: Category(s) != category) ==> r == AllSections
  {
    if category == "header" then [HeaderConfig]
    else if category == "api" then [ApiGuidelines]
    else if category == "component" then [ComponentGuidelines]
    else if category == "hook" then [HookGuidelines]
    else AllSections
  }

  /** The keys of the selected table, in order. */
  function Keys(sections: seq<Section>): (r: seq<string>)
    ensures |r| == |sections|
    ensures forall k :: 0 <= k < |r| ==> r[k] == Key(sections[k])
  {
    seq(|sections|, k requires 0 <= k < |sections| => Key(sections[k]))
  }

  /** Selecting by a section's own category gives that section alone, and
      its table has exactly the one key. */
  lemma SelectByCategory(s: Section)
    ensures Select(Category(s)) == [s]
    ensures Keys(Select(Category(s))) == [Key(s)]
  {
  }

  /** The whole table has four distinct keys, and every section is in it. */
  lemma AllSectionsDistinct()
    ensures |Keys(AllSections)| == 4
    ensures forall a, b :: 0 <= a < b < 4 ==> Keys(AllSections)[a] != Keys(AllSections)[b]
    ensures forall s :: s in AllSections
  {
    forall s ensures s in AllSections {
      match s
      case HeaderConfig => assert AllSections[0] == s;
      case ApiGuidelines => assert AllSections[1] == s;
      case ComponentGuidelines => assert AllSections[2] == s;
      case HookGuidelines => assert AllSections[3] == s;
    }
  }

  /** "all", the default, and any unknown category select all four keys. */
  lemma DefaultSelectsAll(category: string)
    requires category !in {"header", "api", "component", "hook"}
    ensures Keys(Select(category)) == ["headerConfig", "apiGuidelines", "componentGuidelines", "hookGuidelines"]
  {
    assert forall s :: Category(s) != category;
  }
}
