/**
 * `components/ui/TechStackIcon.tsx`: the technology table and the badge
 * rendered for a technology name, with the generic fallback for names not
 * in the table.
 */
module TechIcon {
  import opened Wrappers

  datatype Icon =
    | SiReact | SiNextdotjs | SiTypescript | SiPython | SiJavascript | SiNodedotjs
    | SiTailwindcss | SiPostgresql | SiDocker | SiGithubactions | SiOpenai | SiMysql
    | SiSqlite | SiRedis | SiFastapi | SiFramer | SiD3Dotjs | SiGraphql | SiMongodb
    | FaGitAlt | FaAws | FaMicrosoft | FaCode | FaBrain | FaRobot | FaDatabase
    | FaCloud | FaChartLine | FaLink | TbApi | TbMath | TbBulb

  datatype TechInfo = TechInfo(icon: Icon, color: string, labelText: string)

  /** `techIconMap`: exact technology names to icon, colour class and label. */
  const TechIconMap: map<string, TechInfo> := map[
    "React" := TechInfo(SiReact, "text-blue-400", "React"),
    "Next.js" := TechInfo(SiNextdotjs, "text-white", "Next.js"),
    "Next.js 15" := TechInfo(SiNextdotjs, "text-white", "Next.js 15"),
    "TypeScript" := TechInfo(SiTypescript, "text-blue-500", "TypeScript"),
    "JavaScript" := TechInfo(SiJavascript, "text-yellow-400", "JavaScript"),
    "Tailwind CSS" := TechInfo(SiTailwindcss, "text-cyan-400", "Tailwind CSS"),
    "Framer Motion" := TechInfo(SiFramer, "text-purple-400", "Framer Motion"),
    "Anime.js" := TechInfo(FaCode, "text-green-400", "Anime.js"),
    "D3.js" := TechInfo(SiD3Dotjs, "text-orange-400", "D3.js"),
    "Python" := TechInfo(SiPython, "text-yellow-400", "Python"),
    "Node.js" := TechInfo(SiNodedotjs, "text-green-500", "Node.js"),
    "FastAPI" := TechInfo(SiFastapi, "text-teal-400", "FastAPI"),
    "APIs" := TechInfo(TbApi, "text-blue-400", "APIs"),
    "WebSocket" := TechInfo(FaLink, "text-yellow-500", "WebSocket"),
    "GraphQL" := TechInfo(SiGraphql, "text-pink-400", "GraphQL"),
    "PostgreSQL" := TechInfo(SiPostgresql, "text-blue-600", "PostgreSQL"),
    "MySQL" := TechInfo(SiMysql, "text-blue-500", "MySQL"),
    "SQLite" := TechInfo(SiSqlite, "text-blue-400", "SQLite"),
    "MongoDB" := TechInfo(SiMongodb, "text-green-500", "MongoDB"),
    "Redis" := TechInfo(SiRedis, "text-red-500", "Redis"),
    "ChromaDB" := TechInfo(FaDatabase, "text-purple-400", "ChromaDB"),
    "Pinecone" := TechInfo(FaDatabase, "text-green-400", "Pinecone"),
    "OpenAI" := TechInfo(SiOpenai, "text-green-400", "OpenAI"),
    "GPT-4o" := TechInfo(FaBrain, "text-green-400", "GPT-4o"),
    "LangChain" := TechInfo(FaLink, "text-yellow-500", "LangChain"),
    "LangGraph" := TechInfo(FaChartLine, "text-orange-500", "LangGraph"),
    "Multiple LLMs" := TechInfo(FaBrain, "text-purple-400", "Multiple LLMs"),
    "Tree-sitter" := TechInfo(FaCode, "text-red-400", "Tree-sitter"),
    "Gen AI" := TechInfo(FaRobot, "text-cyan-400", "Generative AI"),
    "Machine Learning" := TechInfo(TbMath, "text-orange-400", "Machine Learning"),
    "LLMs" := TechInfo(FaBrain, "text-purple-500", "Large Language Models"),
    "RAG pipelines" := TechInfo(TbBulb, "text-yellow-400", "RAG Pipelines"),
    "Docker" := TechInfo(SiDocker, "text-blue-400", "Docker"),
    "GitHub Actions" := TechInfo(SiGithubactions, "text-gray-400", "GitHub Actions"),
    "Git" := TechInfo(FaGitAlt, "text-orange-500", "Git"),
    "AWS" := TechInfo(FaAws, "text-orange-400", "AWS"),
    "Azure AI Foundry" := TechInfo(FaMicrosoft, "text-blue-500", "Azure AI Foundry"),
    "MCP" := TechInfo(FaCloud, "text-gray-400", "Model Context Protocol"),
    "C#" := TechInfo(FaCode, "text-purple-500", "C#")
  ]

  /** The generic badge for a name not in the table. */
  const Fallback := TechInfo(FaCode, "text-gray-400", "")

  /** A rendered badge: icon, its colour class and pixel size, the tooltip, and the visible text. */
  datatype Badge = Badge(icon: Icon, color: string, size: nat, title: Option<string>, text: string, known: bool)

  /**
   * `<TechStackIcon tech size showTooltip/>`; `size` defaults to 20 and
   * `showTooltip` to true when absent.
   */
  function Render(tech: string, size: Option<nat>, showTooltip: Option<bool>): (b: Badge)
    ensures b.text == tech && b.size == size.GetOr(20)
    ensures b.known <==> tech in TechIconMap
    ensures tech in TechIconMap ==> b.icon == TechIconMap[tech].icon && b.color == TechIconMap[tech].color
    ensures tech !in TechIconMap ==> b.icon == FaCode && b.color == "text-gray-400"
    ensures showTooltip == Some(false) <==> b.title.None?
    ensures b.title.Some? ==> b.title.value == (if tech in TechIconMap then TechIconMap[tech].labelText else tech)
  {
    var tooltip := showTooltip.GetOr(true);
    if tech !in TechIconMap then
      Badge(FaCode, Fallback.color, size.GetOr(20), if tooltip then Some(tech) else None, tech, false)
    else
      var info := TechIconMap[tech];
      Badge(info.icon, info.color, size.GetOr(20), if tooltip then Some(info.labelText) else None, tech, true)
  }

  /** With the defaults the tooltip is always shown. */
  lemma TooltipDefaultsOn(tech: string, size: Option<nat>)
    ensures Render(tech, size, None).title.Some?
    ensures Render(tech, size, None) == Render(tech, size, Some(true))
  {
  }

  /** The lookup is exact: an alias such as "Next.js 15" has its own entry, with the same icon. */
  lemma AliasHasOwnEntry()
    ensures Render("Next.js 15", None, None).icon == Render("Next.js", None, None).icon == SiNextdotjs
    ensures Render("Next.js 15", None, None).title == Some("Next.js 15")
  {
    assert TechIconMap["Next.js"].icon == SiNextdotjs;
    assert TechIconMap["Next.js 15"] == TechInfo(SiNextdotjs, "text-white", "Next.js 15");
  }

  /** The lookup is exact: a different spelling such as "react" falls back to the generic badge. */
  lemma OtherSpellingFallsBack()
    ensures !Render("react", None, None).known && Render("react", None, None).icon == FaCode
    ensures Render("react", None, None).title == Some("react")
  {
    assert "react" !in TechIconMap;
  }

  /** The tooltip shows the label but the badge shows the key. */
  lemma LabelIsTooltipOnly()
    ensures Render("Gen AI", None, None).title == Some("Generative AI")
    ensures Render("Gen AI", None, None).text == "Gen AI"
    ensures Render("LLMs", None, None).title == Some("Large Language Models")
    ensures Render("LLMs", None, None).text == "LLMs"
  {
  }
}
