/**
 * The `api/profile` routes over a profile store: the profiles keyed by their
 * owner's id, the user records, and the source of fresh subdocument ids.
 * Every private route runs after the auth middleware, so its handler is
 * given the identity the middleware attached.
 */
module ProfileRoute {
  import opened Wrappers
  import opened Strings
  import opened ProfileSchema
  import opened Http

  const PostRules := [Required("status", "Status is required"), Required("skills", "Skills is required")]

  const ExperienceRules := [
    Required("title", "Title is required"),
    Required("company", "Company is required"),
    Required("from", "From date is required")]

  const EducationRules := [
    Required("school", "School is required"),
    Required("degree", "Degree is required"),
    Required("field_of_study", "Field of study is required"),
    Required("from", "From date is required")]

  const NoProfileMsg := "There is no profile for this user"
  const ProfileNotFoundMsg := "Profile not found"
  const UserRemovedMsg := "User removed"

  /** `skills.split(',').map(skill => skill.trim())` */
  function ParseSkills(skills: string): (r: seq<string>)
    ensures |r| == Count(skills, ',') + 1
    ensures forall i :: 0 <= i < |r| ==> r[i] == Trim(Split(skills, ',')[i])
    ensures forall i :: 0 <= i < |r| ==> Trimmed(r[i])
  {
    var parts := Split(skills, ',');
    seq(|parts|, i requires 0 <= i < |parts| => Trim(parts[i]))
  }

  /** A list of trimmed, comma-free skills survives being joined with commas and parsed again. */
  lemma SkillsRoundTrip(skills: seq<string>)
    requires |skills| > 0
    requires forall i :: 0 <= i < |skills| ==> Trimmed(skills[i]) && ',' !in skills[i]
    ensures ParseSkills(Join(skills, ',')) == skills
  {
    var parts := Split(Join(skills, ','), ',');
    SplitJoin(skills, ',');
    assert parts == skills;
    var r := ParseSkills(Join(skills, ','));
    assert |r| == |skills|;
    forall i | 0 <= i < |skills| ensures r[i] == skills[i] {
      TrimOfTrimmed(skills[i]);
      assert r[i] == Trim(parts[i]);
    }
  }

  /** `if (key) profileFields.key = key` */
  function Pick(body: RequestBody, key: string): Option<string> {
    if Truthy(body, key) then Some(body[key]) else None
  }

  /** The value is present exactly when the input is truthy, and then it is the input unchanged. */
  predicate CopiedIfTruthy(v: Option<string>, body: RequestBody, key: string) {
    && (v.Some? <==> Truthy(body, key))
    && (Truthy(body, key) ==> v == Some(body[key]))
  }

  /** The `profileFields` object a POST builds from the authenticated id and the body. */
  function FieldsFrom(user: UserId, body: RequestBody): ProfileFields {
    ProfileFields(
      user,
      Pick(body, "company"),
      Pick(body, "website"),
      Pick(body, "location"),
      Pick(body, "status"),
      Pick(body, "bio"),
      Pick(body, "githubusername"),
      if Truthy(body, "skills") then Some(ParseSkills(body["skills"])) else None,
      SocialFrom(body))
  }

  /** The `profileFields.social` object: one link per truthy input. */
  function SocialFrom(body: RequestBody): Social {
    Social(Pick(body, "youtube"), Pick(body, "twitter"), Pick(body, "facebook"),
           Pick(body, "linkedin"), Pick(body, "instagram"))
  }

  /**
   * The built fields: `user` is the authenticated id, every optional field
   * and every social link is present exactly when its input is truthy and
   * then holds the input unchanged, and `skills` holds the parsed list.
   */
  lemma FieldsCopyTruthyInputs(user: UserId, body: RequestBody)
    ensures FieldsFrom(user, body).user == user
    ensures forall k :: CopiedIfTruthy(FieldScalar(FieldsFrom(user, body), k), body, ScalarName(k))
    ensures forall k :: CopiedIfTruthy(Link(FieldsFrom(user, body).social, k), body, SocialName(k))
    ensures FieldsFrom(user, body).skills.Some? <==> Truthy(body, "skills")
    ensures Truthy(body, "skills") ==> FieldsFrom(user, body).skills == Some(ParseSkills(body["skills"]))
  {
    var f := FieldsFrom(user, body);
    forall k ensures CopiedIfTruthy(FieldScalar(f, k), body, ScalarName(k)) {
      match k {
        case Company => assert FieldScalar(f, k) == Pick(body, "company");
        case Website => assert FieldScalar(f, k) == Pick(body, "website");
        case Location => assert FieldScalar(f, k) == Pick(body, "location");
        case Status => assert FieldScalar(f, k) == Pick(body, "status");
        case Bio => assert FieldScalar(f, k) == Pick(body, "bio");
        case GithubUserName => assert FieldScalar(f, k) == Pick(body, "githubusername");
      }
    }
    forall k ensures CopiedIfTruthy(Link(f.social, k), body, SocialName(k)) {
      match k {
        case YouTube => assert Link(f.social, k) == Pick(body, "youtube");
        case Twitter => assert Link(f.social, k) == Pick(body, "twitter");
        case Facebook => assert Link(f.social, k) == Pick(body, "facebook");
        case LinkedIn => assert Link(f.social, k) == Pick(body, "linkedin");
        case Instagram => assert Link(f.social, k) == Pick(body, "instagram");
      }
    }
  }

  /** The `profileFields` construction of `POST api/profile` as written: start from `{ user }` and add one key at a time. */
  method BuildProfileFields(user: UserId, body: RequestBody) returns (f: ProfileFields)
    ensures f == FieldsFrom(user, body)
  {
    var company, website, location, status, bio, githubusername := BuildScalars(body);
    var skills: Option<seq<string>> := None;
    if Truthy(body, "skills") { skills := Some(ParseSkills(body["skills"])); }
    var social := BuildSocial(body);
    f := ProfileFields(user, company, website, location, status, bio, githubusername, skills, social);
  }

  /** The six `if (key) profileFields.key = key` statements: each optional top-level key is set only when its input is truthy. */
  method BuildScalars(body: RequestBody)
    returns (company: Option<string>, website: Option<string>, location: Option<string>,
             status: Option<string>, bio: Option<string>, githubusername: Option<string>)
    ensures CopiedIfTruthy(company, body, "company") && CopiedIfTruthy(website, body, "website")
    ensures CopiedIfTruthy(location, body, "location") && CopiedIfTruthy(status, body, "status")
    ensures CopiedIfTruthy(bio, body, "bio") && CopiedIfTruthy(githubusername, body, "githubusername")
  {
    company, website, location, status, bio, githubusername := None, None, None, None, None, None;
    if Truthy(body, "company") { company := Some(body["company"]); }
    if Truthy(body, "website") { website := Some(body["website"]); }
    if Truthy(body, "location") { location := Some(body["location"]); }
    if Truthy(body, "status") { status := Some(body["status"]); }
    if Truthy(body, "bio") { bio := Some(body["bio"]); }
    if Truthy(body, "githubusername") { githubusername := Some(body["githubusername"]); }
  }

  /** The `profileFields.social` construction: start from `{}` and add one link at a time. */
  method BuildSocial(body: RequestBody) returns (social: Social)
    ensures social == SocialFrom(body)
  {
    social := NoLinks;
    if Truthy(body, "youtube") { social := social.(youtube := Some(body["youtube"])); }
    if Truthy(body, "twitter") { social := social.(twitter := Some(body["twitter"])); }
    if Truthy(body, "facebook") { social := social.(facebook := Some(body["facebook"])); }
    if Truthy(body, "linkedin") { social := social.(linkedin := Some(body["linkedin"])); }
    if Truthy(body, "instagram") { social := social.(instagram := Some(body["instagram"])); }
  }

  /** The POST checks pass exactly when `status` and `skills` are both non-empty. */
  lemma PostRulesPass(body: RequestBody)
    ensures RequiredErrors(body, PostRules) == [] <==> Truthy(body, "status") && Truthy(body, "skills")
  {
    assert PostRules[0].param == "status" && PostRules[1].param == "skills";
  }

  /**
   * What a valid POST stores: top-level keys with a truthy input take the
   * input, the others keep the stored value (or stay unset on creation); the
   * social object is replaced as a whole; the lists are kept (or empty on
   * creation).
   */
  lemma PostStoresInput(stored: Option<Profile>, user: UserId, body: RequestBody)
    requires RequiredErrors(body, PostRules) == []
    ensures var p := Upsert(stored, FieldsFrom(user, body));
      && p.user == user
      && "status" in body && p.status == Some(body["status"])
      && "skills" in body && p.skills == Some(ParseSkills(body["skills"]))
      && (forall k ::
            Scalar(p, k) == if Truthy(body, ScalarName(k)) then Some(body[ScalarName(k)])
                            else if stored.Some? then Scalar(stored.value, k) else None)
      && (forall k :: CopiedIfTruthy(Link(p.social, k), body, SocialName(k)))
      && p.experience == (if stored.Some? then stored.value.experience else [])
      && p.education == (if stored.Some? then stored.value.education else [])
  {
    PostRulesPass(body);
    FieldsCopyTruthyInputs(user, body);
    var f := FieldsFrom(user, body);
    var p := Upsert(stored, f);
    if stored.Some? {
      SetOverwritesPresentKeys(stored.value, f);
    }
    forall k ensures Scalar(p, k) == if Truthy(body, ScalarName(k)) then Some(body[ScalarName(k)])
                                     else if stored.Some? then Scalar(stored.value, k) else None {
      assert CopiedIfTruthy(FieldScalar(f, k), body, ScalarName(k));
      if stored.None? {
        match k {
          case Company => case Website => case Location =>
          case Status => case Bio => case GithubUserName =>
        }
      }
    }
  }

  /** The experience the PUT builds from the body once its checks have passed. */
  function ExperienceFrom(id: SubId, body: RequestBody): Experience {
    Experience(id, Checked(body, "title"), Checked(body, "company"), Checked(body, "from"),
               Field(body, "to"), Field(body, "location"), Field(body, "current"), Field(body, "description"))
  }

  /** The education the PUT builds from the body once its checks have passed. */
  function EducationFrom(id: SubId, body: RequestBody): Education {
    Education(id, Field(body, "title"), Checked(body, "school"), Checked(body, "degree"),
              Checked(body, "field_of_study"), Checked(body, "from"),
              Field(body, "to"), Field(body, "current"), Field(body, "description"))
  }

  /** The experience checks pass exactly when title, company and from are all non-empty. */
  lemma ExperienceRulesPass(body: RequestBody)
    ensures RequiredErrors(body, ExperienceRules) == [] <==>
      Truthy(body, "title") && Truthy(body, "company") && Truthy(body, "from")
  {
    assert ExperienceRules[0].param == "title" && ExperienceRules[1].param == "company";
    assert ExperienceRules[2].param == "from";
  }

  /** The education checks pass exactly when school, degree, field_of_study and from are all non-empty. */
  lemma EducationRulesPass(body: RequestBody)
    ensures RequiredErrors(body, EducationRules) == [] <==>
      Truthy(body, "school") && Truthy(body, "degree") && Truthy(body, "field_of_study") && Truthy(body, "from")
  {
    assert EducationRules[0].param == "school" && EducationRules[1].param == "degree";
    assert EducationRules[2].param == "field_of_study" && EducationRules[3].param == "from";
  }

  /** A validated education entry holds the non-empty school, degree, field of study and start date as sent. */
  lemma EducationCopiesRequired(id: SubId, body: RequestBody)
    requires RequiredErrors(body, EducationRules) == []
    ensures "school" in body && EducationFrom(id, body).school == body["school"] != ""
    ensures "degree" in body && EducationFrom(id, body).degree == body["degree"] != ""
    ensures "field_of_study" in body && EducationFrom(id, body).fieldOfStudy == body["field_of_study"] != ""
    ensures "from" in body && EducationFrom(id, body).from == body["from"] != ""
  {
    EducationRulesPass(body);
  }

  /** A validated experience holds the required inputs exactly as they were sent. */
  lemma ExperienceCopiesRequired(id: SubId, body: RequestBody)
    requires RequiredErrors(body, ExperienceRules) == []
    ensures "title" in body && ExperienceFrom(id, body).title == body["title"] != ""
    ensures "company" in body && ExperienceFrom(id, body).company == body["company"] != ""
    ensures "from" in body && ExperienceFrom(id, body).from == body["from"] != ""
  {
    ExperienceRulesPass(body);
  }

  /** Adding an entry puts it first, keeps the old entries after it in order, and changes nothing else. */
  lemma AddExperienceShape(p: Profile, e: Experience)
    ensures |AddExperience(p, e).experience| == |p.experience| + 1
    ensures AddExperience(p, e).experience[0] == e
    ensures AddExperience(p, e).experience[1..] == p.experience
    ensures AddExperience(p, e).(experience := p.experience) == p
  {
  }

  /** Adding an entry puts it first, keeps the old entries after it in order, and changes nothing else. */
  lemma AddEducationShape(p: Profile, e: Education)
    ensures |AddEducation(p, e).education| == |p.education| + 1
    ensures AddEducation(p, e).education[0] == e
    ensures AddEducation(p, e).education[1..] == p.education
    ensures AddEducation(p, e).(education := p.education) == p
  {
  }

  /** The store's invariant for one profile: keyed by its owner, subdocument ids unique and already handed out. */
  ghost predicate WellFormed(p: Profile, owner: UserId, bound: SubId) {
    && p.user == owner
    && UniqueIds(p.experience, ExperienceId) && IdsBelow(p.experience, ExperienceId, bound)
    && UniqueIds(p.education, EducationId) && IdsBelow(p.education, EducationId, bound)
  }

  lemma PrependFresh<T>(x: T, xs: seq<T>, idOf: T -> SubId, bound: SubId)
    requires UniqueIds(xs, idOf) && IdsBelow(xs, idOf, bound)
    requires idOf(x) == bound
    ensures UniqueIds([x] + xs, idOf) && IdsBelow([x] + xs, idOf, bound + 1)
  {
    var r := [x] + xs;
    forall i | 1 <= i < |r| ensures r[i] == xs[i - 1] { }
  }

  lemma WellFormedLater(p: Profile, owner: UserId, bound: SubId)
    requires WellFormed(p, owner, bound)
    ensures WellFormed(p, owner, bound + 1)
  {
  }

  class ProfileStore {
    /** The profile collection, keyed by the owning user's id. */
    var profiles: map<UserId, Profile>
    /** The ids of the user records. */
    var users: set<UserId>
    /** The next subdocument `_id` the store hands out. */
    var nextId: SubId

    ghost predicate Valid()
      reads this
    {
      forall u :: u in profiles ==> WellFormed(profiles[u], u, nextId)
    }

    constructor (users: set<UserId>)
      ensures Valid()
      ensures profiles == map[] && this.users == users && nextId == 0
    {
      profiles := map[];
      this.users := users;
      nextId := 0;
    }

    /** `GET api/profile/me` */
    method GetMe(who: Identity) returns (reply: Reply)
      ensures who.id in profiles ==> reply == Reply(200, Doc(profiles[who.id]))
      ensures who.id !in profiles ==> reply == Reply(400, Msg(NoProfileMsg))
    {
      if who.id !in profiles {
        return Reply(400, Msg(NoProfileMsg));
      }
      reply := Reply(200, Doc(profiles[who.id]));
    }

    /** `GET api/profile/user/:user_id` */
    method GetByUser(userId: UserId) returns (reply: Reply)
      ensures userId in profiles ==> reply == Reply(200, Doc(profiles[userId]))
      ensures userId !in profiles ==> reply == Reply(400, Msg(ProfileNotFoundMsg))
    {
      if userId !in profiles {
        return Reply(400, Msg(ProfileNotFoundMsg));
      }
      reply := Reply(200, Doc(profiles[userId]));
    }

    /** `POST api/profile`: validate, build the fields, then update the stored profile or create one. */
    method Post(who: Identity, body: RequestBody) returns (reply: Reply)
      requires Valid()
      modifies this
      ensures Valid()
      ensures users == old(users) && nextId == old(nextId)
      ensures RequiredErrors(body, PostRules) != [] ==>
        reply == Reply(400, Errors(RequiredErrors(body, PostRules))) && profiles == old(profiles)
      ensures RequiredErrors(body, PostRules) == [] ==>
        var p := Upsert(Lookup(old(profiles), who.id), FieldsFrom(who.id, body));
        profiles == old(profiles)[who.id := p] && reply == Reply(200, Doc(p))
    {
      var errors := RequiredErrors(body, PostRules);
      if errors != [] {
        return Reply(400, Errors(errors));
      }
      var fields := BuildProfileFields(who.id, body);
      var profile: Profile;
      if who.id in profiles {
        profile := ApplySet(profiles[who.id], fields);
        assert profile.experience == profiles[who.id].experience;
        assert profile.education == profiles[who.id].education;
      } else {
        profile := NewProfile(fields);
      }
      assert profile == Upsert(Lookup(profiles, who.id), fields);
      assert WellFormed(profile, who.id, nextId);
      profiles := profiles[who.id := profile];
      reply := Reply(200, Doc(profile));
    }

    /** `PUT api/profile/experience`: validate, then put the new entry first. */
    method PutExperience(who: Identity, body: RequestBody) returns (reply: Reply)
      requires Valid()
      modifies this
      ensures Valid()
      ensures users == old(users)
      ensures RequiredErrors(body, ExperienceRules) != [] ==>
        reply == Reply(400, Errors(RequiredErrors(body, ExperienceRules)))
        && profiles == old(profiles) && nextId == old(nextId)
      ensures RequiredErrors(body, ExperienceRules) == [] && who.id !in old(profiles) ==>
        reply == ServerError && profiles == old(profiles) && nextId == old(nextId)
      ensures RequiredErrors(body, ExperienceRules) == [] && who.id in old(profiles) ==>
        var p := AddExperience(old(profiles)[who.id], ExperienceFrom(old(nextId), body));
        profiles == old(profiles)[who.id := p] && nextId == old(nextId) + 1 && reply == Reply(200, Doc(p))
      ensures RequiredErrors(body, ExperienceRules) == [] && who.id in old(profiles) ==>
        (forall i :: 0 <= i < |old(profiles)[who.id].experience| ==> old(profiles)[who.id].experience[i].id != old(nextId))
        && RemoveExperience(profiles[who.id], old(nextId)) == old(profiles)[who.id]
    {
      var errors := RequiredErrors(body, ExperienceRules);
      if errors != [] {
        return Reply(400, Errors(errors));
      }
      if who.id !in profiles {
        return ServerError;
      }
      var profile := profiles[who.id];
      var entry := ExperienceFrom(nextId, body);
      PrependFresh(entry, profile.experience, ExperienceId, nextId);
      RemoveExperienceUndoesAdd(profile, entry);
      profile := AddExperience(profile, entry);
      forall u | u in profiles ensures WellFormed(profiles[u], u, nextId + 1) {
        WellFormedLater(profiles[u], u, nextId);
      }
      profiles := profiles[who.id := profile];
      nextId := nextId + 1;
      reply := Reply(200, Doc(profile));
    }

    /** `DELETE api/profile/experience/:exp_id` */
    method DeleteExperience(who: Identity, id: SubId) returns (reply: Reply)
      requires Valid()
      modifies this
      ensures Valid()
      ensures users == old(users) && nextId == old(nextId)
      ensures who.id !in old(profiles) ==> reply == ServerError && profiles == old(profiles)
      ensures who.id in old(profiles) ==>
        var p := RemoveExperience(old(profiles)[who.id], id);
        profiles == old(profiles)[who.id := p] && reply == Reply(200, Doc(p))
    {
      if who.id !in profiles {
        return ServerError;
      }
      var profile := profiles[who.id];
      RemoveKeepsUnique(profile.experience, ExperienceId, id);
      profile := RemoveExperience(profile, id);
      profiles := profiles[who.id := profile];
      reply := Reply(200, Doc(profile));
    }

    /** `PUT api/profile/education`: validate, then put the new entry first. */
    method PutEducation(who: Identity, body: RequestBody) returns (reply: Reply)
      requires Valid()
      modifies this
      ensures Valid()
      ensures users == old(users)
      ensures RequiredErrors(body, EducationRules) != [] ==>
        reply == Reply(400, Errors(RequiredErrors(body, EducationRules)))
        && profiles == old(profiles) && nextId == old(nextId)
      ensures RequiredErrors(body, EducationRules) == [] && who.id !in old(profiles) ==>
        reply == ServerError && profiles == old(profiles) && nextId == old(nextId)
      ensures RequiredErrors(body, EducationRules) == [] && who.id in old(profiles) ==>
        var p := AddEducation(old(profiles)[who.id], EducationFrom(old(nextId), body));
        profiles == old(profiles)[who.id := p] && nextId == old(nextId) + 1 && reply == Reply(200, Doc(p))
      ensures RequiredErrors(body, EducationRules) == [] && who.id in old(profiles) ==>
        (forall i :: 0 <= i < |old(profiles)[who.id].education| ==> old(profiles)[who.id].education[i].id != old(nextId))
        && RemoveEducation(profiles[who.id], old(nextId)) == old(profiles)[who.id]
    {
      var errors := RequiredErrors(body, EducationRules);
      if errors != [] {
        return Reply(400, Errors(errors));
      }
      if who.id !in profiles {
        return ServerError;
      }
      var profile := profiles[who.id];
      var entry := EducationFrom(nextId, body);
      PrependFresh(entry, profile.education, EducationId, nextId);
      RemoveEducationUndoesAdd(profile, entry);
      profile := AddEducation(profile, entry);
      forall u | u in profiles ensures WellFormed(profiles[u], u, nextId + 1) {
        WellFormedLater(profiles[u], u, nextId);
      }
      profiles := profiles[who.id := profile];
      nextId := nextId + 1;
      reply := Reply(200, Doc(profile));
    }

    /** `DELETE api/profile/education/:edu_id` */
    method DeleteEducation(who: Identity, id: SubId) returns (reply: Reply)
      requires Valid()
      modifies this
      ensures Valid()
      ensures users == old(users) && nextId == old(nextId)
      ensures who.id !in old(profiles) ==> reply == ServerError && profiles == old(profiles)
      ensures who.id in old(profiles) ==>
        var p := RemoveEducation(old(profiles)[who.id], id);
        profiles == old(profiles)[who.id := p] && reply == Reply(200, Doc(p))
    {
      if who.id !in profiles {
        return ServerError;
      }
      var profile := profiles[who.id];
      RemoveKeepsUnique(profile.education, EducationId, id);
      profile := RemoveEducation(profile, id);
      profiles := profiles[who.id := profile];
      reply := Reply(200, Doc(profile));
    }

    /** `DELETE api/profile`: remove the profile and the user record, whether or not they exist. */
    method DeleteAccount(who: Identity) returns (reply: Reply)
      requires Valid()
      modifies this
      ensures Valid()
      ensures profiles == old(profiles) - {who.id} && users == old(users) - {who.id}
      ensures nextId == old(nextId)
      ensures reply == Reply(200, Msg(UserRemovedMsg))
    {
      profiles := profiles - {who.id};
      users := users - {who.id};
      reply := Reply(200, Msg(UserRemovedMsg));
    }
  }
}
