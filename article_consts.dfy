/** The competency table shared by the relevance and complexity forms. */
module ArticleConsts {

  datatype SkillGroup = SkillGroup(title: string, color: string, skills: seq<string>)

  const Skills: seq<SkillGroup> := [
    SkillGroup("Clinical & Product Knowledge", "#346583",
      ["Structural Heart Disease Knowledge", "Procedural Expertise", "Clinical Data Expertise",
       "Surgical Product Portfolio Knowledge", "Competitve Surgical Products Knowledge",
       "Transcatheter Solution Knowledge"]),
    SkillGroup("Market & Business Expertise", "#B19048",
      ["Economic Drivers & Future Trends of the Business and Industry",
       "Reimbursement, Tendering and GHER Proficiency", "Tender/Contract Management",
       "EW & Surgical Strategy", "Customer Leadership"]),
    SkillGroup("Operational Excellence", "#505759",
      ["Strategic Insights Development Thinking", "Territory Planning",
       "Operational Effectiveness", "Business Analytics"]),
    SkillGroup("Selling Skills", "#C8102E",
      ["Sales Call Planning", "Communication (Objection Handling)",
       "Value & Solutions Selling (Persuasion & Negotiation)", "Partnership Building"])
  ]

  /** `groups.map(g => g.skills.length).reduce((a, b) => a + b, 0)` */
  function SizeSum(groups: seq<SkillGroup>): nat {
    if groups == [] then 0
    else SizeSum(groups[..|groups| - 1]) + |groups[|groups| - 1].skills|
  }

  /** Number of skills over all competency groups. */
  const TotalSkills: nat := SizeSum(Skills)

  /** Number of job titles each skill is rated for. */
  const JobCount: nat := 7

  /** Length of a relevance or complexity vector: one cell per (job, skill). */
  const VectorLength: nat := TotalSkills * JobCount

  /** The table holds 6 + 5 + 4 + 4 skills, so vectors have 133 cells. */
  lemma TableSizes()
    ensures |Skills| == 4
    ensures |Skills[0].skills| == 6 && |Skills[1].skills| == 5
    ensures |Skills[2].skills| == 4 && |Skills[3].skills| == 4
    ensures TotalSkills == 19 && VectorLength == 133
  {
    assert Skills[..1][..0] == [];
    assert SizeSum(Skills[..1]) == 6;
    assert Skills[..2][..1] == Skills[..1];
    assert SizeSum(Skills[..2]) == 11;
    assert Skills[..3][..2] == Skills[..2];
    assert SizeSum(Skills[..3]) == 15;
    assert Skills[..3] == Skills[..|Skills| - 1];
    assert SizeSum(Skills) == 19;
  }

  /** Group titles are used as keys when the groups are listed, so they must differ. */
  lemma TitlesDistinct()
    ensures forall i, j :: 0 <= i < j < |Skills| ==> Skills[i].title != Skills[j].title
  {
  }

  /** Every group lists at least one skill. */
  lemma GroupsNonEmpty()
    ensures forall g :: 0 <= g < |Skills| ==> |Skills[g].skills| > 0
  {
  }
}
