/**
 * The add-skill popup: a form over one skill, whose submission creates the
 * skill and then attaches it to the user, both through the session layer.
 */
module SkillsPopup {
  import opened Js
  import opened Skills
  import opened Http
  import opened Session

  const CreateFallback := "Failed to create skill"
  const AttachFallback := "Failed to add user skill"
  const CatchFallback := "Failed to add skill. Please try again."

  /** The fields of a reply document that `handleSubmit` reads. */
  datatype SkillReply = SkillReply(id: Option<int>, message: Option<string>)

  /** The popup's callbacks, as they are invoked. */
  datatype Callback = SkillAdded | Close

  /** How the create request ends: the created skill to carry on with, or the message the catch clause shows. */
  datatype Step = Proceed(result: SkillReply) | Abort(message: string)

  /**
   * The create request with its `ok` check, given how `authFetch` settled: the
   * body is read in every case, so an unreadable body fails even on a 2xx; a
   * non-ok status is shown as the body's `message` or "Failed to create skill",
   * and an ok status carries the created skill on.
   */
  function CreatePhase(settled: Reply<SkillReply>): (s: Step)
    ensures s.Proceed? <==> settled.Resolved? && IsOk(settled.value.status) && settled.value.body.Document?
    ensures s.Proceed? ==> s.result == settled.value.body.value
    ensures settled.Resolved? && !IsOk(settled.value.status) && settled.value.body.Document? ==>
      s == Abort(Or(settled.value.body.value.message, CreateFallback))
    ensures settled.Resolved? && settled.value.body.NotJson? ==> s == Abort(settled.value.body.message)
    ensures settled.Rejected? ==> s == Abort(MessageOf(settled.reason, CatchFallback))
  {
    match settled
    case Rejected(e) => Abort(MessageOf(e, CatchFallback))
    case Resolved(response) =>
      match response.body
      case NotJson(m) => Abort(m)
      case Document(b) => if IsOk(response.status) then Proceed(b) else Abort(Or(b.message, CreateFallback))
  }

  /**
   * The attach request with its `ok` check: any ok status succeeds without the
   * body being read; only a non-ok reply's body is read, for its `message` or
   * "Failed to add user skill".  None means success, otherwise the message shown.
   */
  function AttachFailure(settled: Reply<SkillReply>): (m: Option<string>)
    ensures m.None? <==> settled.Resolved? && IsOk(settled.value.status)
    ensures settled.Resolved? && !IsOk(settled.value.status) && settled.value.body.Document? ==>
      m == Some(Or(settled.value.body.value.message, AttachFallback))
    ensures settled.Resolved? && !IsOk(settled.value.status) && settled.value.body.NotJson? ==>
      m == Some(settled.value.body.message)
    ensures settled.Rejected? ==> m == Some(MessageOf(settled.reason, CatchFallback))
  {
    match settled
    case Rejected(e) => Some(MessageOf(e, CatchFallback))
    case Resolved(response) =>
      if IsOk(response.status) then None
      else
        match response.body
        case NotJson(message) => Some(message)
        case Document(b) => Some(Or(b.message, AttachFallback))
  }

  /** A 401 from either request ends the submission with "Session expired". */
  lemma ExpiredAborts(reply: Reply<SkillReply>)
    requires Expired(reply)
    ensures CreatePhase(AuthOutcome(reply)) == Abort(ExpiredMessage)
    ensures AttachFailure(AuthOutcome(reply)) == Some(ExpiredMessage)
  {
  }

  /** The create request: the selected skill as the name, and "<skill> skill" as the description. */
  function CreateRequest(apiUrl: string, token: Option<string>, skill: string): Request {
    AuthRequest(apiUrl + "/skills", Init(Some("POST"), [], NewSkill(skill, skill + " skill")), token)
  }

  /**
   * The attach request: the id the create reply carried, with the user and the
   * form's type, proficiency (sent whatever the type) and description.
   */
  function AttachRequest(apiUrl: string, token: Option<string>, userId: int, skillId: Option<int>,
                         kind: SkillType, proficiency: Proficiency, description: string): Request
  {
    AuthRequest(apiUrl + "/skills/add-user-skill",
                Init(Some("POST"), [], NewUserSkill(userId, skillId, kind, proficiency, description)), token)
  }

  /** `onSkillAdded?.()` then `onClose()`. */
  function Notified(hasOnSkillAdded: bool): (calls: seq<Callback>)
    ensures |calls| == (if hasOnSkillAdded then 2 else 1)
    ensures calls[|calls| - 1] == Close
    ensures hasOnSkillAdded ==> calls[0] == SkillAdded
    ensures SkillAdded in calls <==> hasOnSkillAdded
  {
    (if hasOnSkillAdded then [SkillAdded] else []) + [Close]
  }

  class Popup {
    const browser: Browser
    /** `process.env.NEXT_PUBLIC_API_URL` */
    const apiUrl: string
    const userId: int
    /** Whether the optional `onSkillAdded` callback was provided. */
    const hasOnSkillAdded: bool

    var selectedSkill: string
    var kind: SkillType
    var proficiency: Proficiency
    var description: string
    var isSubmitting: bool
    var error: string
    /** The callbacks invoked so far, in order. */
    var calls: seq<Callback>

    constructor (browser: Browser, apiUrl: string, userId: int, hasOnSkillAdded: bool)
      ensures this.browser == browser && this.apiUrl == apiUrl && this.userId == userId
      ensures this.hasOnSkillAdded == hasOnSkillAdded
      ensures selectedSkill == "" && kind == Offered && proficiency == Beginner && description == ""
      ensures !isSubmitting && error == "" && calls == []
    {
      this.browser := browser;
      this.apiUrl := apiUrl;
      this.userId := userId;
      this.hasOnSkillAdded := hasOnSkillAdded;
      selectedSkill, kind, proficiency, description := "", Offered, Beginner, "";
      isSubmitting, error, calls := false, "", [];
    }

    /**
     * `handleSubmit`.  Without a selected skill nothing happens.  Otherwise the
     * create request goes out; only if it succeeds does the attach request go
     * out, with the id it returned; only if both succeed are the callbacks
     * invoked.  `pending` is (isSubmitting, error) while the requests are awaited.
     */
    method HandleSubmit(createReply: Reply<SkillReply>, attachReply: Reply<SkillReply>)
      returns (ghost pending: (bool, string))
      modifies this, browser
      ensures old(selectedSkill) == "" ==>
        && browser.sent == old(browser.sent) && browser.storage == old(browser.storage)
        && browser.href == old(browser.href)
        && isSubmitting == old(isSubmitting) && error == old(error) && calls == old(calls)
      ensures selectedSkill == old(selectedSkill) && kind == old(kind)
      ensures proficiency == old(proficiency) && description == old(description)
      ensures browser.routes == old(browser.routes)
      ensures old(selectedSkill) != "" ==> pending == (true, "") && !isSubmitting
      ensures old(selectedSkill) != "" ==>
        var create := CreateRequest(apiUrl, old(browser.Token()), selectedSkill);
        match CreatePhase(AuthOutcome(createReply))
        case Abort(m) =>
          && browser.sent == old(browser.sent) + [create]
          && error == m && calls == old(calls)
        case Proceed(created) =>
          && browser.sent == old(browser.sent) +
               [create, AttachRequest(apiUrl, old(browser.Token()), userId, created.id, kind, proficiency, description)]
          && match AttachFailure(AuthOutcome(attachReply))
             case Some(m) => error == m && calls == old(calls)
             case None => error == "" && calls == old(calls) + Notified(hasOnSkillAdded)
      ensures old(selectedSkill) != "" ==>
        var expired := Expired(createReply) ||
                       (CreatePhase(AuthOutcome(createReply)).Proceed? && Expired(attachReply));
        && browser.storage == (if expired then old(browser.storage) - {TokenKey} else old(browser.storage))
        && browser.href == (if expired then LoginPath else old(browser.href))
    {
      pending := (isSubmitting, error);
      if selectedSkill == "" {
        return;
      }
      isSubmitting := true;
      error := "";
      pending := (isSubmitting, error);
      var created := browser.AuthFetch(apiUrl + "/skills",
                                       Init(Some("POST"), [], NewSkill(selectedSkill, selectedSkill + " skill")),
                                       createReply);
      var step := CreatePhase(created);
      if step.Abort? {
        error := step.message;
      } else {
        var attached := browser.AuthFetch(apiUrl + "/skills/add-user-skill",
                                          Init(Some("POST"), [], NewUserSkill(userId, step.result.id, kind, proficiency, description)),
                                          attachReply);
        var failure := AttachFailure(attached);
        if failure.Some? {
          error := failure.value;
        } else {
          if hasOnSkillAdded {
            calls := calls + [SkillAdded];
          }
          calls := calls + [Close];
        }
      }
      isSubmitting := false;
    }
  }
}
