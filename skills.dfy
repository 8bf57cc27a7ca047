/** The skill inventory's values and the JSON payloads the client sends. */
module Skills {
  import opened Js

  /** `'OFFERED' | 'WANTED_TO_LEARN'` */
  datatype SkillType = Offered | WantedToLearn

  /** `'BEGINNER' | 'INTERMEDIATE' | 'ADVANCED' | 'EXPERT'` */
  datatype Proficiency = Beginner | Intermediate | Advanced | Expert

  /** The string constant the client sends and receives for a type. */
  function TypeName(t: SkillType): string {
    match t
    case Offered => "OFFERED"
    case WantedToLearn => "WANTED_TO_LEARN"
  }

  function ProficiencyName(p: Proficiency): string {
    match p
    case Beginner => "BEGINNER"
    case Intermediate => "INTERMEDIATE"
    case Advanced => "ADVANCED"
    case Expert => "EXPERT"
  }

  /** One entry of the dashboard's list, as the backend returns it. */
  datatype UserSkill = UserSkill(
    id: string,
    skillName: Option<string>,
    kind: SkillType,
    proficiency: Option<string>,
    description: Option<string>)

  /** The JSON document a request carries (`JSON.stringify` of an object literal). */
  datatype Body =
    | NoBody
    | LoginCredentials(email: string, password: string)
    | Registration(email: string, password: string, name: Option<string>)
    | NewSkill(skillName: string, skillDescription: string)
    | NewUserSkill(userId: int, skillId: Option<int>, kind: SkillType, proficiency: Proficiency, description: string)
}
