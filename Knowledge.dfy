/** The knowledge-base item record and the fixed dataset the knowledge base browses. */
module KnowledgeTypes {
  import opened Common

  /** The closed set of item kinds. */
  datatype ItemType = Article | Gallery | Tutorial | Factsheet

  /** The string the item carries in its `type` field. */
  function TypeName(t: ItemType): string
  {
    match t
    case Article => "article"
    case Gallery => "gallery"
    case Tutorial => "tutorial"
    case Factsheet => "factsheet"
  }

  /** One knowledge-base entry; the optional fields of the source are `Option`s. */
  datatype KnowledgeItem = KnowledgeItem(
    id: string,
    title: string,
    kind: ItemType,
    category: string,
    description: string,
    readTime: Option<string>,
    downloadUrl: Option<string>,
    imageCount: Option<int>,
    videoLength: Option<string>,
    tags: seq<string>,
    featured: Option<bool>)

  /** JavaScript truthiness of an optional string: present and not "". */
  predicate TruthyText(s: Option<string>)
  {
    s.Some? && s.value != ""
  }

  /** JavaScript truthiness of an optional number: present and not 0. */
  predicate TruthyCount(n: Option<int>)
  {
    n.Some? && n.value != 0
  }

  /** `${x}` of an optional string: an absent value prints as "undefined". */
  function Interpolate(s: Option<string>): string
  {
    if s.Some? then s.value else "undefined"
  }
}

/** The six fixed knowledge-base items. */
module KnowledgeData {
  import opened Common
  import opened KnowledgeTypes

  const MarbleHistory := KnowledgeItem(
    "1", "The History of Carrara Marble", Article, "Materials",
    "Discover the fascinating history of Carrara marble, from Roman times to modern sculptural masterpieces.",
    Some("8 min read"), None, None, None,
    ["marble", "history", "italy", "carrara"], Some(true))

  const CuttingTechniques := KnowledgeItem(
    "2", "Stone Cutting Techniques Through the Ages", Tutorial, "Techniques",
    "Learn about traditional and modern stone cutting methods used in quarries and workshops.",
    None, None, None, Some("15 min"),
    ["techniques", "tutorial", "quarrying"], Some(true))

  const FamousMonuments := KnowledgeItem(
    "3", "World Famous Stone Monuments", Gallery, "Monuments",
    "A visual journey through the most iconic stone monuments around the world.",
    None, None, Some(24), None,
    ["monuments", "architecture", "photography"], Some(false))

  const GeologicalProperties := KnowledgeItem(
    "4", "Geological Properties of Natural Stones", Factsheet, "Science",
    "Technical specifications and geological characteristics of various stone materials.",
    None, Some("/factsheet-geological-properties.pdf"), None, None,
    ["geology", "technical", "reference"], Some(false))

  const BuildingRestoration := KnowledgeItem(
    "5", "Restoration of Historic Stone Buildings", Article, "Conservation",
    "Best practices and case studies in historic stone building restoration and preservation.",
    Some("12 min read"), None, None, None,
    ["restoration", "conservation", "buildings"], Some(false))

  const QuarryingEquipment := KnowledgeItem(
    "6", "Modern Quarrying Equipment", Tutorial, "Industry",
    "Overview of contemporary machinery and technology used in stone quarrying operations.",
    None, None, None, Some("22 min"),
    ["quarrying", "equipment", "modern", "industry"], Some(false))

  const MockKnowledgeItems: seq<KnowledgeItem> :=
    [MarbleHistory, CuttingTechniques, FamousMonuments,
     GeologicalProperties, BuildingRestoration, QuarryingEquipment]
}
