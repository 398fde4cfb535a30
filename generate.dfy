/** The portfolio generation route: the retry schedule of the call to the
    text-generation service, the formatting of the user's skills and projects
    into the prompt, and the guards that decide the route's reply.

    The network is a parameter: `net[k]` is what the service does with the
    call made when the retry counter is `k` (it answers with a response, or the
    call raises). Waiting is not performed; the delays are returned. */
module PortfolioGenerate {
  import opened Optional
  import opened Text

  // ---------------------------------------------------------------------------
  // Retry with exponential backoff

  const MaxRetries: nat := 3
  const InitialDelay: nat := 1000

  /** 2 to the power `n`. */
  function Pow2(n: nat): (p: nat)
    ensures p >= 1
  {
    if n == 0 then 1 else 2 * Pow2(n - 1)
  }

  /** The wait before the retry that follows a failed call made with counter
      `retries`: `initialDelay * Math.pow(2, retries)` milliseconds. */
  function Delay(retries: nat): nat {
    InitialDelay * Pow2(retries)
  }

  /** The reply to a generation request, as far as the route reads it: the
      text of the first part of each candidate (`None` when a candidate has no
      such text), or `None` for the whole list when it is missing. */
  datatype GenerationResult = GenerationResult(candidates: Option<seq<Option<string>>>)

  /** An HTTP response; `body` is `None` when it is not JSON. */
  datatype Response = Response(ok: bool, status: int, body: Option<GenerationResult>)

  /** What one call to `fetch` does. */
  datatype Outcome = Responds(response: Response) | Raises

  /** How the retry loop ends: with a response (which may be an error
      response), or by throwing. */
  datatype Fetched = Returned(response: Response) | Failed(message: string)

  /** The calls made, the waits between them, and the end. */
  datatype Trace = Trace(calls: nat, delays: seq<nat>, final: Fetched)

  const ExhaustedMessage := "API call failed after " + NatToString(MaxRetries) + " attempts."

  /** A call that needs no retry. */
  predicate Succeeds(o: Outcome) {
    o.Responds? && o.response.ok
  }

  /** How many calls `fetchWithBackoff(url, options, retries)` may still make. */
  function Budget(retries: nat): nat {
    if retries < MaxRetries then MaxRetries - retries + 1 else 1
  }

  /** The end that the last call gives. */
  function Ending(o: Outcome): Fetched {
    match o
    case Responds(resp) => Returned(resp)
    case Raises => Failed(ExhaustedMessage)
  }

  /** `fetchWithBackoff`: call; an error response or an exception is retried
      after `Delay(retries)` while `retries < maxRetries`. Once the retries
      are spent, an error response is returned and an exception becomes the
      "API call failed after 3 attempts." error. */
  function FetchWithBackoff(net: seq<Outcome>, retries: nat): (t: Trace)
    requires retries < |net| && MaxRetries < |net|
    ensures 1 <= t.calls <= Budget(retries)
    ensures |t.delays| == t.calls - 1
    ensures forall k :: 0 <= k < |t.delays| ==> t.delays[k] == Delay(retries + k)
    ensures forall j :: retries <= j < retries + t.calls - 1 ==> !Succeeds(net[j])
    ensures Succeeds(net[retries + t.calls - 1]) || retries + t.calls - 1 >= MaxRetries
    ensures t.final == Ending(net[retries + t.calls - 1])
    decreases MaxRetries - retries
  {
    if !Succeeds(net[retries]) && retries < MaxRetries then
      var rest := FetchWithBackoff(net, retries + 1);
      Trace(rest.calls + 1, [Delay(retries)] + rest.delays, rest.final)
    else
      Trace(1, [], Ending(net[retries]))
  }

  /** The schedule is determined by the network: two traces that both meet
      the contract above are equal, so the contract describes
      `fetchWithBackoff` completely. */
  lemma {:induction false} TraceDetermined(net: seq<Outcome>, retries: nat, t: Trace)
    requires retries < |net| && MaxRetries < |net|
    requires 1 <= t.calls <= Budget(retries) && |t.delays| == t.calls - 1
    requires forall k :: 0 <= k < |t.delays| ==> t.delays[k] == Delay(retries + k)
    requires forall j :: retries <= j < retries + t.calls - 1 ==> !Succeeds(net[j])
    requires Succeeds(net[retries + t.calls - 1]) || retries + t.calls - 1 >= MaxRetries
    requires t.final == Ending(net[retries + t.calls - 1])
    ensures t == FetchWithBackoff(net, retries)
    decreases MaxRetries - retries
  {
    if !Succeeds(net[retries]) && retries < MaxRetries {
      var rest := Trace(t.calls - 1, t.delays[1..], t.final);
      DelaysTail(t.delays, retries);
      TraceDetermined(net, retries + 1, rest);
      ConsTail(t.delays);
    }
  }

  lemma DelaysTail(delays: seq<nat>, retries: nat)
    requires delays != []
    requires forall k :: 0 <= k < |delays| ==> delays[k] == Delay(retries + k)
    ensures forall k :: 0 <= k < |delays| - 1 ==> delays[1..][k] == Delay(retries + 1 + k)
  {
    forall k | 0 <= k < |delays| - 1
      ensures delays[1..][k] == Delay(retries + 1 + k)
    {
      assert delays[1..][k] == delays[k + 1];
    }
  }

  lemma ConsTail(s: seq<nat>)
    requires s != []
    ensures s == [s[0]] + s[1..]
  {
  }

  /** A successful response is returned at once, with no further call. */
  lemma OkReturnedAtOnce(net: seq<Outcome>, retries: nat)
    requires retries < |net| && MaxRetries < |net|
    requires Succeeds(net[retries])
    ensures FetchWithBackoff(net, retries) == Trace(1, [], Returned(net[retries].response))
  {
  }

  /** From the first call on, at most `maxRetries + 1` = 4 calls are made,
      and an exhausted loop that ends in an error response returns it. */
  lemma AtMostFourCalls(net: seq<Outcome>)
    requires MaxRetries < |net|
    ensures FetchWithBackoff(net, 0).calls <= 4
    ensures net[3].Responds? && FetchWithBackoff(net, 0).calls == 4 ==>
      FetchWithBackoff(net, 0).final == Returned(net[3].response)
  {
  }

  /** When every call raises, four calls are made with waits of 1, 2 and 4
      seconds, and the loop throws although four attempts were made. */
  lemma AllRaise(net: seq<Outcome>)
    requires MaxRetries < |net|
    requires forall k :: 0 <= k < |net| ==> net[k] == Raises
    ensures FetchWithBackoff(net, 0) == Trace(4, [1000, 2000, 4000], Failed(ExhaustedMessage))
  {
    var t := Trace(4, [1000, 2000, 4000], Failed(ExhaustedMessage));
    assert Delay(0) == 1000 && Delay(1) == 2000 && Delay(2) == 4000;
    assert forall j :: 0 <= j < 3 ==> !Succeeds(net[j]);
    TraceDetermined(net, 0, t);
  }

  /** The message names three attempts, the number of retries, although the
      loop makes four calls. */
  lemma ExhaustedMessageText()
    ensures ExhaustedMessage == "API call failed after 3 attempts."
  {
    assert NatToString(3) == "3";
  }

  /** Two error responses and then a success: three calls, waits of 1 and 2
      seconds, and the success is returned. */
  lemma TwoFailuresThenOk(bad: Response, good: Response, net: seq<Outcome>)
    requires !bad.ok && good.ok
    requires |net| == 4 && net[0] == Responds(bad) && net[1] == Raises && net[2] == Responds(good)
    ensures FetchWithBackoff(net, 0) == Trace(3, [1000, 2000], Returned(good))
  {
    var t := FetchWithBackoff(net, 0);
    assert t.delays[0] == Delay(0) && t.delays[1] == Delay(1);
  }

  // ---------------------------------------------------------------------------
  // Prompt formatting

  /** An entry of `userData.skills`: a plain string, or an object with a
      name and a proficiency level. */
  datatype SkillEntry = Named(skill: string) | Rated(skillName: Option<string>, proficiencyLevel: Option<int>)

  /** An entry of `userData.projects`. */
  datatype ProjectEntry = ProjectEntry(
    name: Option<string>,
    projectTitleEn: Option<string>,
    userRole: Option<string>,
    description: Option<string>,
    descriptionEn: Option<string>)

  /** A value interpolated into a template literal: a missing one prints as
      "undefined". */
  function Interpolate(o: Option<string>): string {
    o.GetOr("undefined")
  }

  /** `s.proficiency_level || 3`: a missing level and level 0 become 3. */
  function Level(level: Option<int>): (l: int)
    ensures l != 0
    ensures level.Some? && level.value != 0 ==> l == level.value
    ensures level.None? || level.value == 0 ==> l == 3
  {
    if level.Some? && level.value != 0 then level.value else 3
  }

  /** One skill as the prompt shows it. */
  function FormatSkill(s: SkillEntry): string {
    match s
    case Named(skill) => skill
    case Rated(n, l) => Interpolate(n) + " (" + IntToString(Level(l)) + "/5)"
  }

  /** The skills line: each skill formatted, joined with ", ". */
  function SkillsText(skills: seq<SkillEntry>): string {
    Join(", ", seq(|skills|, i requires 0 <= i < |skills| => FormatSkill(skills[i])))
  }

  /** One project as the prompt shows it: the title falls back from `name` to
      `project_title_en` to 'Untitled', the role to 'Creator', and the
      description from `description` to `description_en` to ''. */
  function FormatProject(p: ProjectEntry): string {
    "Project Title: " + OrElse(p.name, OrElse(p.projectTitleEn, "Untitled"))
      + ". Role: " + OrElse(p.userRole, "Creator")
      + ". Description: " + OrElse(p.description, OrElse(p.descriptionEn, ""))
  }

  /** The projects block: each project formatted, joined with "\n---\n". */
  function ProjectsText(projects: seq<ProjectEntry>): string {
    Join("\n---\n", seq(|projects|, i requires 0 <= i < |projects| => FormatProject(projects[i])))
  }

  /** A plain string skill is shown verbatim; a rated one as
      `name (level/5)`, and the level shown reads back as the given level, or
      as 3 when the level is missing or 0; a negative level is kept and
      shown with its minus sign. */
  lemma SkillShown(s: SkillEntry)
    ensures s.Named? ==> FormatSkill(s) == s.skill
    ensures s.Rated? && s.skillName.Some? ==> StartsWith(FormatSkill(s), s.skillName.value + " (")
    ensures s.Rated? && s.skillName.None? ==> StartsWith(FormatSkill(s), "undefined (")
    ensures s.Rated? && s.proficiencyLevel.None? ==> FormatSkill(s) == Interpolate(s.skillName) + " (3/5)"
    ensures s.Rated? && s.proficiencyLevel.Some? && s.proficiencyLevel.value > 0 ==>
      exists digits :: FormatSkill(s) == Interpolate(s.skillName) + " (" + digits + "/5)"
                       && AllDigits(digits) && DigitsValue(digits) == s.proficiencyLevel.value
    ensures s.Rated? && s.proficiencyLevel == Some(0) ==> FormatSkill(s) == Interpolate(s.skillName) + " (3/5)"
    ensures s.Rated? && s.proficiencyLevel.Some? && s.proficiencyLevel.value < 0 ==>
      exists digits :: FormatSkill(s) == Interpolate(s.skillName) + " (-" + digits + "/5)"
                       && AllDigits(digits) && DigitsValue(digits) == -s.proficiencyLevel.value
  {
    if s.Rated? {
      var head := Interpolate(s.skillName) + " (";
      var lvl := IntToString(Level(s.proficiencyLevel));
      assert FormatSkill(s) == head + (lvl + "/5)");
      assert FormatSkill(s)[..|head|] == head;
      if s.proficiencyLevel.None? || s.proficiencyLevel == Some(0) {
        assert NatToString(3) == "3";
      }
      if s.proficiencyLevel.Some? && s.proficiencyLevel.value > 0 {
        DigitsValueOfNatToString(s.proficiencyLevel.value);
      }
      if s.proficiencyLevel.Some? && s.proficiencyLevel.value < 0 {
        var digits := NatToString(-s.proficiencyLevel.value);
        DigitsValueOfNatToString(-s.proficiencyLevel.value);
        assert FormatSkill(s) == Interpolate(s.skillName) + " (-" + digits + "/5)";
      }
    }
  }

  /** A project's entry opens with its title: the `name` when given and
      non-empty, otherwise `project_title_en`, otherwise 'Untitled'. */
  lemma ProjectTitleShown(p: ProjectEntry)
    ensures StartsWith(FormatProject(p), "Project Title: " + OrElse(p.name, OrElse(p.projectTitleEn, "Untitled")) + ". Role: ")
    ensures Truthy(p.name) ==> OrElse(p.name, OrElse(p.projectTitleEn, "Untitled")) == p.name.value
    ensures !Truthy(p.name) && Truthy(p.projectTitleEn) ==>
      OrElse(p.name, OrElse(p.projectTitleEn, "Untitled")) == p.projectTitleEn.value
    ensures !Truthy(p.name) && !Truthy(p.projectTitleEn) ==>
      OrElse(p.name, OrElse(p.projectTitleEn, "Untitled")) == "Untitled"
  {
    var head := "Project Title: " + OrElse(p.name, OrElse(p.projectTitleEn, "Untitled")) + ". Role: ";
    var role := OrElse(p.userRole, "Creator");
    var desc := OrElse(p.description, OrElse(p.descriptionEn, ""));
    assert FormatProject(p) == head + (role + ". Description: " + desc);
    assert FormatProject(p)[..|head|] == head;
  }

  /** A project without a role is shown with the role 'Creator'. */
  lemma CreatorRole(p: ProjectEntry)
    requires !Truthy(p.userRole)
    ensures Contains(FormatProject(p), ". Role: " + "Creator" + ". Description: ")
  {
    var title := OrElse(p.name, OrElse(p.projectTitleEn, "Untitled"));
    var desc := OrElse(p.description, OrElse(p.descriptionEn, ""));
    ContainsMiddle("Project Title: " + title, ". Role: " + "Creator" + ". Description: ", desc);
    assert FormatProject(p) == "Project Title: " + title + (". Role: " + "Creator" + ". Description: ") + desc;
  }

  /** Adding a project adds the separator and its entry at the end of the
      projects block; the block of no projects is empty. */
  lemma ProjectsTextAppend(projects: seq<ProjectEntry>, p: ProjectEntry)
    ensures ProjectsText([]) == ""
    ensures ProjectsText(projects + [p]) ==
      if projects == [] then FormatProject(p) else ProjectsText(projects) + "\n---\n" + FormatProject(p)
  {
    var xs := seq(|projects|, i requires 0 <= i < |projects| => FormatProject(projects[i]));
    var ys := seq(|projects + [p]|, i requires 0 <= i < |projects + [p]| => FormatProject((projects + [p])[i]));
    assert ys == xs + [FormatProject(p)];
    JoinAppend("\n---\n", xs, FormatProject(p));
  }

  /** Adding a skill adds ", " and its entry at the end of the skills line. */
  lemma SkillsTextAppend(skills: seq<SkillEntry>, s: SkillEntry)
    ensures SkillsText([]) == ""
    ensures SkillsText(skills + [s]) ==
      if skills == [] then FormatSkill(s) else SkillsText(skills) + ", " + FormatSkill(s)
  {
    var xs := seq(|skills|, i requires 0 <= i < |skills| => FormatSkill(skills[i]));
    var ys := seq(|skills + [s]|, i requires 0 <= i < |skills + [s]| => FormatSkill((skills + [s])[i]));
    assert ys == xs + [FormatSkill(s)];
    JoinAppend(", ", xs, FormatSkill(s));
  }

  // ---------------------------------------------------------------------------
  // The route

  /** The body of a generation request; `userData` is `None` when missing or
      falsy. Only the fields the route formats are kept. */
  datatype UserData = UserData(skills: Option<seq<SkillEntry>>, projects: Option<seq<ProjectEntry>>)
  datatype RequestBody = RequestBody(userData: Option<UserData>, userGoal: Option<string>)

  /** The route's JSON reply: `portfolio` is present exactly on success. */
  datatype Reply<P> = Reply(status: nat, success: bool, message: string, portfolio: Option<P>)

  /** The reply together with what the route did on the way: whether it read
      the request body and how many calls it made to the service. */
  datatype Handled<P> = Handled(reply: Reply<P>, bodyRead: bool, fetchCalls: nat)

  const MissingKeyMessage := "Missing GEMINI_API_KEY"
  const MissingUserDataMessage := "Missing userData in request body"
  const NoCandidatesMessage := "AI generation failed or returned no candidates."
  const InternalErrorMessage := "Internal server error during AI processing."

  function Failure<P>(status: nat, message: string): Reply<P> {
    Reply(status, false, message, None)
  }

  /** The text of the first part of the first candidate of a response, when
      the body is JSON, has a non-empty `candidates` list and that text is
      there. */
  function FirstCandidateText(resp: Response): Option<string> {
    if resp.body.Some? && resp.body.value.candidates.Some? && |resp.body.value.candidates.value| > 0 then
      resp.body.value.candidates.value[0]
    else None
  }

  /** The route after the service has answered: the first candidate's text
      is parsed (`parse` is `JSON.parse`, `None` when it throws) and returned;
      no candidate gives a 500; a body that is not JSON, a candidate without
      text or text that does not parse is the catch-all 500. */
  function Answer<P>(resp: Response, parse: string -> Option<P>): (r: Reply<P>)
    ensures r.success <==> r.status == 200
    ensures r.success <==> r.portfolio.Some?
    ensures r.success <==> FirstCandidateText(resp).Some? && parse(FirstCandidateText(resp).value).Some?
    ensures r.success ==> r.portfolio == parse(FirstCandidateText(resp).value)
    ensures !r.success ==> r.status == 500
    ensures resp.body.Some? && (resp.body.value.candidates.None? || resp.body.value.candidates.value == []) ==>
      r == Failure(500, NoCandidatesMessage)
  {
    match resp.body
    case None => Failure(500, InternalErrorMessage)
    case Some(result) =>
      if result.candidates.Some? && |result.candidates.value| > 0 then
        match result.candidates.value[0]
        case None => Failure(500, InternalErrorMessage)
        case Some(text) =>
          match parse(text)
          case None => Failure(500, InternalErrorMessage)
          case Some(v) => Reply(200, true, "", Some(v))
      else Failure(500, NoCandidatesMessage)
  }

  /** The part of the route that calls the service (the request has passed
      the guards and the body has been read): a loop that throws is caught
      as the 500 internal error; a returned response, even an error
      response, is answered by its candidates. */
  function Consult<P>(net: seq<Outcome>, parse: string -> Option<P>): (h: Handled<P>)
    requires MaxRetries < |net|
    ensures h.bodyRead && h.fetchCalls == FetchWithBackoff(net, 0).calls
    ensures 1 <= h.fetchCalls <= MaxRetries + 1
    ensures FetchWithBackoff(net, 0).final.Failed? ==> h.reply == Failure(500, InternalErrorMessage)
    ensures h.reply.success ==>
      FetchWithBackoff(net, 0).final.Returned?
      && FirstCandidateText(FetchWithBackoff(net, 0).final.response).Some?
      && h.reply.portfolio == parse(FirstCandidateText(FetchWithBackoff(net, 0).final.response).value)
    ensures FetchWithBackoff(net, 0).final.Returned? ==>
      h.reply == Answer(FetchWithBackoff(net, 0).final.response, parse)
  {
    var t := FetchWithBackoff(net, 0);
    match t.final
    case Failed(_) => Handled(Failure(500, InternalErrorMessage), true, t.calls)
    case Returned(resp) => Handled(Answer(resp, parse), true, t.calls)
  }

  /** The generation route. `apiKey` is the configured key ("" when unset);
      `body` is the parsed request body (`None` when it is not JSON). The
      key is checked before the body is read, and `userData` before the
      service is called. */
  function HandleGenerate<P>(apiKey: string, body: Option<RequestBody>, net: seq<Outcome>,
                             parse: string -> Option<P>): (h: Handled<P>)
    requires MaxRetries < |net|
    ensures apiKey == "" ==> h == Handled(Failure(500, MissingKeyMessage), false, 0)
    ensures apiKey != "" && body.None? ==> h == Handled(Failure(500, InternalErrorMessage), true, 0)
    ensures apiKey != "" && body.Some? && body.value.userData.None? ==>
      h == Handled(Failure(400, MissingUserDataMessage), true, 0)
    ensures apiKey != "" && body.Some? && body.value.userData.Some? ==> h == Consult(net, parse)
    ensures h.fetchCalls > 0 <==> apiKey != "" && body.Some? && body.value.userData.Some?
    ensures h.reply.success <==> h.reply.status == 200
  {
    if apiKey == "" then
      Handled(Failure(500, MissingKeyMessage), false, 0)
    else
      match body
      case None => Handled(Failure(500, InternalErrorMessage), true, 0)
      case Some(b) =>
        if b.userData.None? then
          Handled(Failure(400, MissingUserDataMessage), true, 0)
        else
          Consult(net, parse)
  }
}
