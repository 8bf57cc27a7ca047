/** The dashboard: the user's skill list, its type filter, deletion and the display helpers. */
module Dashboard {
  import opened Js
  import opened Skills
  import opened Http
  import opened Session

  const DeleteFallback := "Failed to delete skill."
  const DeleteCrashed := "Something went wrong."

  /** `'ALL' | 'OFFERED' | 'WANTED_TO_LEARN'` */
  datatype Filter = All | Only(kind: SkillType)

  /** The reply document of the list request: an array of entries, or any other JSON value. */
  datatype SkillList = Entries(items: seq<UserSkill>) | NotArray

  /** The field of the delete reply that `handleDelete` reads. */
  datatype DeleteReply = DeleteReply(message: Option<string>)

  /** The alert `handleDelete` shows after a confirmed delete. */
  datatype Notice = Deleted | Failed(text: string)

  /** `Array.prototype.filter`: the elements satisfying `p`, in their order. */
  function Keep<T>(s: seq<T>, p: T -> bool): (r: seq<T>)
    ensures |r| <= |s|
    ensures forall i :: 0 <= i < |r| ==> p(r[i]) && r[i] in s
  {
    if s == [] then [] else (if p(s[0]) then [s[0]] else []) + Keep(s[1..], p)
  }

  /** Filtering distributes over concatenation, so the kept elements stay in their original order. */
  lemma {:induction false} KeepAppend<T>(a: seq<T>, b: seq<T>, p: T -> bool)
    ensures Keep(a + b, p) == Keep(a, p) + Keep(b, p)
  {
    if a == [] {
      assert a + b == b;
    } else {
      var head := if p(a[0]) then [a[0]] else [];
      assert (a + b)[0] == a[0];
      assert (a + b)[1..] == a[1..] + b;
      KeepAppend(a[1..], b, p);
      calc {
        Keep(a + b, p);
        head + Keep(a[1..] + b, p);
        head + (Keep(a[1..], p) + Keep(b, p));
        (head + Keep(a[1..], p)) + Keep(b, p);
        Keep(a, p) + Keep(b, p);
      }
    }
  }

  /** Each element is kept exactly as often as it occurs, if it satisfies `p`, and otherwise not at all. */
  lemma {:induction false} KeepCount<T>(s: seq<T>, p: T -> bool, x: T)
    ensures multiset(Keep(s, p))[x] == if p(x) then multiset(s)[x] else 0
  {
    if s != [] {
      KeepCount(s[1..], p, x);
      assert s == [s[0]] + s[1..];
    }
  }

  /** When every element satisfies `p`, nothing is dropped. */
  lemma {:induction false} KeepEverything<T>(s: seq<T>, p: T -> bool)
    requires forall i :: 0 <= i < |s| ==> p(s[i])
    ensures Keep(s, p) == s
  {
    if s != [] {
      KeepEverything(s[1..], p);
    }
  }

  /** `filteredSkills` */
  function FilteredSkills(skills: seq<UserSkill>, filter: Filter): (r: seq<UserSkill>)
    ensures filter == All ==> r == skills
    ensures filter.Only? ==> forall i :: 0 <= i < |r| ==> r[i].kind == filter.kind && r[i] in skills
  {
    if filter == All then skills else Keep(skills, (s: UserSkill) => s.kind == filter.kind)
  }

  /**
   * ALL shows the whole list; any other filter shows exactly the entries of that
   * type (each as often as in the list), in the list's order.
   */
  lemma FilteredSkillsContract(skills: seq<UserSkill>, filter: Filter, more: seq<UserSkill>, x: UserSkill)
    ensures filter == All ==> FilteredSkills(skills, filter) == skills
    ensures filter.Only? ==>
      multiset(FilteredSkills(skills, filter))[x] == if x.kind == filter.kind then multiset(skills)[x] else 0
    ensures FilteredSkills(skills + more, filter) == FilteredSkills(skills, filter) + FilteredSkills(more, filter)
  {
    if filter.Only? {
      KeepCount(skills, (s: UserSkill) => s.kind == filter.kind, x);
      KeepAppend(skills, more, (s: UserSkill) => s.kind == filter.kind);
    }
  }

  /** Every entry of the list kept by a filter occurs as often as in the list, and no other entry occurs. */
  lemma FilteredSkillsCount(skills: seq<UserSkill>, filter: Filter)
    ensures forall x ::
      multiset(FilteredSkills(skills, filter))[x] == (if filter.All? || x.kind == filter.kind then multiset(skills)[x] else 0)
  {
    forall x {
      FilteredSkillsContract(skills, filter, [], x);
    }
  }

  /** The update after a successful delete: `prev.filter((s) => s.id !== id)`. */
  function RemoveById(skills: seq<UserSkill>, id: string): (r: seq<UserSkill>)
    ensures |r| <= |skills|
    ensures forall i :: 0 <= i < |r| ==> r[i].id != id && r[i] in skills
  {
    Keep(skills, (s: UserSkill) => s.id != id)
  }

  /**
   * Deleting removes every entry with that id and keeps each other entry, as
   * often as before and in the same order; with no such entry the list is unchanged.
   */
  lemma RemoveByIdContract(skills: seq<UserSkill>, id: string, more: seq<UserSkill>, x: UserSkill)
    ensures forall i :: 0 <= i < |RemoveById(skills, id)| ==> RemoveById(skills, id)[i].id != id
    ensures multiset(RemoveById(skills, id))[x] == if x.id == id then 0 else multiset(skills)[x]
    ensures RemoveById(skills + more, id) == RemoveById(skills, id) + RemoveById(more, id)
    ensures (forall i :: 0 <= i < |skills| ==> skills[i].id != id) ==> RemoveById(skills, id) == skills
  {
    var p := (s: UserSkill) => s.id != id;
    KeepCount(skills, p, x);
    KeepAppend(skills, more, p);
    if forall i :: 0 <= i < |skills| ==> skills[i].id != id {
      KeepEverything(skills, p);
    }
  }

  /** The badge classes `badgeColor` chooses from. */
  const BadgeClasses := {"bg-gray-300", "bg-green-500", "bg-yellow-400", "bg-blue-400", "bg-gray-400"}

  /**
   * `badgeColor(level)`: gray-300 exactly when there is no level; otherwise the
   * first of the expert, intermediate and beginner checks that matches the
   * lower-cased level wins, and gray-400 when none does.
   */
  function BadgeColor(level: Option<string>): (c: string)
    ensures c in BadgeClasses
    ensures c == "bg-gray-300" <==> !Truthy(level)
    ensures Truthy(level) ==>
      var l := Lower(level.value);
      && (Contains(l, "expert") ==> c == "bg-green-500")
      && (!Contains(l, "expert") && Contains(l, "intermediate") ==> c == "bg-yellow-400")
      && (!Contains(l, "expert") && !Contains(l, "intermediate") && Contains(l, "beginner") ==> c == "bg-blue-400")
      && (!Contains(l, "expert") && !Contains(l, "intermediate") && !Contains(l, "beginner") ==> c == "bg-gray-400")
  {
    if !Truthy(level) then "bg-gray-300"
    else
      var l := Lower(level.value);
      if Contains(l, "expert") then "bg-green-500"
      else if Contains(l, "intermediate") then "bg-yellow-400"
      else if Contains(l, "beginner") then "bg-blue-400"
      else "bg-gray-400"
  }

  /** The lower-cased proficiency and type names, evaluated once each. */
  lemma LowerExpert() ensures Lower("EXPERT") == "expert" {}
  lemma LowerIntermediate() ensures Lower("INTERMEDIATE") == "intermediate" {}
  lemma LowerBeginner() ensures Lower("BEGINNER") == "beginner" {}
  lemma LowerAdvanced() ensures Lower("ADVANCED") == "advanced" {}
  lemma LowerWantedToLearn() ensures Lower("WANTED_TO_LEARN") == "wanted_to_learn" {}

  lemma ExpertIsGreen()
    ensures BadgeColor(Some("EXPERT")) == "bg-green-500"
  {
    LowerExpert();
    assert StartsWith("expert", "expert");
  }

  lemma IntermediateIsYellow()
    ensures BadgeColor(Some("INTERMEDIATE")) == "bg-yellow-400"
  {
    LowerIntermediate();
    assert StartsWith("intermediate", "intermediate");
    MissingCharRefutes("intermediate", "expert", 'x');
  }

  lemma BeginnerIsBlue()
    ensures BadgeColor(Some("BEGINNER")) == "bg-blue-400"
  {
    LowerBeginner();
    assert StartsWith("beginner", "beginner");
    MissingCharRefutes("beginner", "expert", 'x');
    MissingCharRefutes("beginner", "intermediate", 'a');
  }

  lemma AdvancedIsGray()
    ensures BadgeColor(Some("ADVANCED")) == "bg-gray-400"
  {
    LowerAdvanced();
    MissingCharRefutes("advanced", "expert", 'x');
    MissingCharRefutes("advanced", "intermediate", 'i');
    MissingCharRefutes("advanced", "beginner", 'b');
  }

  /**
   * An absent or empty level is gray-300; EXPERT is green, INTERMEDIATE yellow,
   * BEGINNER blue and ADVANCED, which none of the checks names, gray-400.
   */
  lemma BadgeColorContract(p: Proficiency)
    ensures BadgeColor(None) == "bg-gray-300" && BadgeColor(Some("")) == "bg-gray-300"
    ensures BadgeColor(Some(ProficiencyName(p))) ==
      match p
      case Expert => "bg-green-500"
      case Intermediate => "bg-yellow-400"
      case Beginner => "bg-blue-400"
      case Advanced => "bg-gray-400"
  {
    match p {
      case Expert => ExpertIsGreen();
      case Intermediate => IntermediateIsYellow();
      case Beginner => BeginnerIsBlue();
      case Advanced => AdvancedIsGray();
    }
  }

  /** The checks ignore case, and a level that mentions "expert" is green whatever else it mentions. */
  lemma BadgeColorIgnoresCase(level: string)
    ensures BadgeColor(Some(Lower(level))) == BadgeColor(Some(level))
    ensures Contains(Lower(level), "expert") ==> BadgeColor(Some(level)) == "bg-green-500"
  {
    assert Lower(Lower(level)) == Lower(level);
  }

  /** `replaceAll('_', ' ')` */
  function SpaceUnderscores(s: string): (r: string)
    ensures |r| == |s|
    ensures forall i :: 0 <= i < |s| ==> r[i] == if s[i] == '_' then ' ' else s[i]
  {
    seq(|s|, i requires 0 <= i < |s| => if s[i] == '_' then ' ' else s[i])
  }

  /** The type column: the type lower-cased with every underscore turned into a space. */
  function TypeLabel(t: SkillType): (text: string)
    ensures text == if t == Offered then "offered" else "wanted to learn"
  {
    LowerWantedToLearn();
    SpaceUnderscores(Lower(TypeName(t)))
  }

  /** Whether the fetched document replaces the list: any reply except a 401, whatever its status, whose body is an array. */
  function Replaces(reply: Reply<SkillList>): (b: bool)
    ensures b <==> reply.Resolved? && reply.value.status != 401 && reply.value.body.Document? && reply.value.body.value.Entries?
  {
    && AuthOutcome(reply).Resolved?
    && reply.value.body.Document?
    && reply.value.body.value.Entries?
  }

  /**
   * The alert after a confirmed delete, given how `authFetch` settled: success
   * for an ok reply, the reply's `message` or the fallback for any other status,
   * and "Something went wrong." when the request or the body failed.
   */
  function DeleteNotice(settled: Reply<DeleteReply>): (n: Notice)
    ensures n == Deleted <==> settled.Resolved? && IsOk(settled.value.status) && settled.value.body.Document?
    ensures settled.Rejected? ==> n == Failed(DeleteCrashed)
    ensures settled.Resolved? && settled.value.body.NotJson? ==> n == Failed(DeleteCrashed)
    ensures settled.Resolved? && !IsOk(settled.value.status) && settled.value.body.Document? ==>
      n == Failed(Or(settled.value.body.value.message, DeleteFallback))
  {
    match settled
    case Rejected(_) => Failed(DeleteCrashed)
    case Resolved(response) =>
      match response.body
      case NotJson(_) => Failed(DeleteCrashed)
      case Document(result) => if IsOk(response.status) then Deleted else Failed(Or(result.message, DeleteFallback))
  }

  class Page {
    const browser: Browser
    /** `process.env.NEXT_PUBLIC_API_URL` */
    const apiUrl: string
    const userId: int
    var skills: seq<UserSkill>
    var loading: bool
    var filter: Filter

    constructor (browser: Browser, apiUrl: string, userId: int)
      ensures this.browser == browser && this.apiUrl == apiUrl && this.userId == userId
      ensures skills == [] && loading && filter == All
    {
      this.browser := browser;
      this.apiUrl := apiUrl;
      this.userId := userId;
      skills, loading, filter := [], true, All;
    }

    /** The rows the table shows. */
    function Visible(): (rows: seq<UserSkill>)
      reads this
      ensures filter == All ==> rows == skills
      ensures filter.Only? ==> forall i :: 0 <= i < |rows| ==> rows[i].kind == filter.kind && rows[i] in skills
      ensures forall x :: multiset(rows)[x] == (if filter.All? || x.kind == filter.kind then multiset(skills)[x] else 0)
    {
      FilteredSkillsCount(skills, filter);
      FilteredSkills(skills, filter)
    }

    /** `fetchSkills`: asks for the user's list and takes it only when the body is an array. */
    method FetchSkills(reply: Reply<SkillList>)
      modifies this, browser
      ensures browser.sent == old(browser.sent) +
        [AuthRequest(apiUrl + "/skills/user-skills?userId=" + IntToString(userId), Init(None, [], NoBody), old(browser.Token()))]
      ensures skills == if Replaces(reply) then reply.value.body.value.items else old(skills)
      ensures !loading && filter == old(filter)
      ensures browser.storage == (if Expired(reply) then old(browser.storage) - {TokenKey} else old(browser.storage))
      ensures browser.href == (if Expired(reply) then LoginPath else old(browser.href))
      ensures browser.routes == old(browser.routes)
    {
      loading := true;
      var res := browser.AuthFetch(apiUrl + "/skills/user-skills?userId=" + IntToString(userId),
                                   Init(None, [], NoBody), reply);
      if res.Resolved? && res.value.body.Document? && res.value.body.value.Entries? {
        skills := res.value.body.value.items;
      }
      loading := false;
    }

    /**
     * `handleDelete(id)`: without confirmation nothing is sent; otherwise the
     * DELETE goes out and only an ok reply with a readable body removes the
     * entries with that id.
     */
    method HandleDelete(id: string, confirmed: bool, reply: Reply<DeleteReply>) returns (notice: Option<Notice>)
      modifies this, browser
      ensures !confirmed ==>
        && notice == None && skills == old(skills)
        && browser.sent == old(browser.sent) && browser.storage == old(browser.storage)
        && browser.href == old(browser.href)
      ensures confirmed ==>
        && browser.sent == old(browser.sent) +
             [AuthRequest(apiUrl + "/skills/user-skills/" + id, Init(Some("DELETE"), [], NoBody), old(browser.Token()))]
        && notice == Some(DeleteNotice(AuthOutcome(reply)))
        && browser.storage == (if Expired(reply) then old(browser.storage) - {TokenKey} else old(browser.storage))
        && browser.href == (if Expired(reply) then LoginPath else old(browser.href))
      ensures skills == if notice == Some(Deleted) then RemoveById(old(skills), id) else old(skills)
      ensures loading == old(loading) && filter == old(filter) && browser.routes == old(browser.routes)
    {
      if !confirmed {
        return None;
      }
      var res := browser.AuthFetch(apiUrl + "/skills/user-skills/" + id, Init(Some("DELETE"), [], NoBody), reply);
      var n := DeleteNotice(res);
      if n == Deleted {
        skills := RemoveById(skills, id);
      }
      notice := Some(n);
    }
  }
}
