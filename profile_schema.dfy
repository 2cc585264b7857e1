/**
 * The profile document the profile routes read and write, the object of
 * fields a POST builds from its input, and the two document operations the
 * routes use: `$set` of those fields (create-or-update) and the removal of
 * experience / education entries by `_id`.
 */
module ProfileSchema {
  import opened Wrappers

  /** The authenticated user's id, `req.user.id`. */
  type UserId = string

  /** A subdocument `_id`, handed out by the store. */
  type SubId = nat

  datatype Social = Social(
    youtube: Option<string>,
    twitter: Option<string>,
    facebook: Option<string>,
    linkedin: Option<string>,
    instagram: Option<string>)

  /** `{}`: the social object with no link set. */
  const NoLinks := Social(None, None, None, None, None)

  /** An experience entry: the three required fields, then the optional ones as received. */
  datatype Experience = Experience(
    id: SubId,
    title: string,
    company: string,
    from: string,
    to: Option<string>,
    location: Option<string>,
    current: Option<string>,
    description: Option<string>)

  /** An education entry: the four required fields, then the optional ones as received. */
  datatype Education = Education(
    id: SubId,
    title: Option<string>,
    school: string,
    degree: string,
    fieldOfStudy: string,
    from: string,
    to: Option<string>,
    current: Option<string>,
    description: Option<string>)

  datatype Profile = Profile(
    user: UserId,
    company: Option<string>,
    website: Option<string>,
    location: Option<string>,
    status: Option<string>,
    bio: Option<string>,
    githubusername: Option<string>,
    skills: Option<seq<string>>,
    social: Social,
    experience: seq<Experience>,
    education: seq<Education>)

  /** `profileFields`: every key a POST may set; `None` is a key left out of the object. */
  datatype ProfileFields = ProfileFields(
    user: UserId,
    company: Option<string>,
    website: Option<string>,
    location: Option<string>,
    status: Option<string>,
    bio: Option<string>,
    githubusername: Option<string>,
    skills: Option<seq<string>>,
    social: Social)

  /** The top-level string keys of a profile. */
  datatype ScalarKey = Company | Website | Location | Status | Bio | GithubUserName

  /** The keys of the social object. */
  datatype SocialKey = YouTube | Twitter | Facebook | LinkedIn | Instagram

  /** The JSON name of a top-level string key, the same in the request body and the document. */
  function ScalarName(k: ScalarKey): string {
    match k
    case Company => "company"
    case Website => "website"
    case Location => "location"
    case Status => "status"
    case Bio => "bio"
    case GithubUserName => "githubusername"
  }

  /** The JSON name of a social key, the same in the request body and the document. */
  function SocialName(k: SocialKey): string {
    match k
    case YouTube => "youtube"
    case Twitter => "twitter"
    case Facebook => "facebook"
    case LinkedIn => "linkedin"
    case Instagram => "instagram"
  }

  /** `profile[key]` for a top-level string key. */
  function Scalar(p: Profile, k: ScalarKey): Option<string> {
    match k
    case Company => p.company
    case Website => p.website
    case Location => p.location
    case Status => p.status
    case Bio => p.bio
    case GithubUserName => p.githubusername
  }

  /** `profileFields[key]` for a top-level string key. */
  function FieldScalar(f: ProfileFields, k: ScalarKey): Option<string> {
    match k
    case Company => f.company
    case Website => f.website
    case Location => f.location
    case Status => f.status
    case Bio => f.bio
    case GithubUserName => f.githubusername
  }

  /** `social[key]` */
  function Link(s: Social, k: SocialKey): Option<string> {
    match k
    case YouTube => s.youtube
    case Twitter => s.twitter
    case Facebook => s.facebook
    case LinkedIn => s.linkedin
    case Instagram => s.instagram
  }

  /** A key present in the update replaces the stored value; an absent key keeps it. */
  function Overwrite<T>(stored: Option<T>, update: Option<T>): Option<T> {
    if update.Some? then update else stored
  }

  /** `{ $set: f }` applied to a stored profile. */
  function ApplySet(p: Profile, f: ProfileFields): Profile {
    Profile(
      f.user,
      Overwrite(p.company, f.company),
      Overwrite(p.website, f.website),
      Overwrite(p.location, f.location),
      Overwrite(p.status, f.status),
      Overwrite(p.bio, f.bio),
      Overwrite(p.githubusername, f.githubusername),
      Overwrite(p.skills, f.skills),
      f.social,
      p.experience,
      p.education)
  }

  /** `new Profile(f)`: the fields, and empty experience and education lists. */
  function NewProfile(f: ProfileFields): Profile {
    Profile(f.user, f.company, f.website, f.location, f.status, f.bio, f.githubusername,
            f.skills, f.social, [], [])
  }

  /** A profile document with nothing but its owner. */
  function EmptyProfile(user: UserId): Profile {
    Profile(user, None, None, None, None, None, None, None, NoLinks, [], [])
  }

  /** Create-or-update: `$set` on the stored profile, or a new profile when there is none. */
  function Upsert(stored: Option<Profile>, f: ProfileFields): Profile {
    match stored
    case Some(p) => ApplySet(p, f)
    case None => NewProfile(f)
  }

  /**
   * `$set` semantics: every key present in the fields overwrites, the whole
   * social object included; every other key keeps its stored value.
   */
  lemma SetOverwritesPresentKeys(p: Profile, f: ProfileFields)
    ensures ApplySet(p, f).user == f.user
    ensures forall k :: Scalar(ApplySet(p, f), k) == (if FieldScalar(f, k).Some? then FieldScalar(f, k) else Scalar(p, k))
    ensures ApplySet(p, f).skills == (if f.skills.Some? then f.skills else p.skills)
    ensures ApplySet(p, f).social == f.social
    ensures ApplySet(p, f).experience == p.experience && ApplySet(p, f).education == p.education
  {
  }

  /** Creating a profile from the fields is the same as `$set` on an empty document. */
  lemma CreateIsSetOnEmpty(f: ProfileFields)
    ensures NewProfile(f) == ApplySet(EmptyProfile(f.user), f)
  {
  }

  /** Posting the same fields twice leaves the same profile as posting them once. */
  lemma UpsertIdempotent(stored: Option<Profile>, f: ProfileFields)
    ensures Upsert(Some(Upsert(stored, f)), f) == Upsert(stored, f)
  {
  }

  function ExperienceId(e: Experience): SubId { e.id }

  function EducationId(e: Education): SubId { e.id }

  /** No two entries share an `_id`. */
  ghost predicate UniqueIds<T>(xs: seq<T>, idOf: T -> SubId) {
    forall i, j :: 0 <= i < j < |xs| ==> idOf(xs[i]) != idOf(xs[j])
  }

  /** Every `_id` is below `bound` (the store's next fresh id). */
  ghost predicate IdsBelow<T>(xs: seq<T>, idOf: T -> SubId, bound: SubId) {
    forall i :: 0 <= i < |xs| ==> idOf(xs[i]) < bound
  }

  /** `xs.filter(x => !x._id.equals(id))` */
  function RemoveById<T>(xs: seq<T>, idOf: T -> SubId, id: SubId): (r: seq<T>)
    ensures |r| <= |xs|
    ensures forall i :: 0 <= i < |r| ==> r[i] in xs && idOf(r[i]) != id
    ensures forall i :: 0 <= i < |xs| && idOf(xs[i]) != id ==> xs[i] in r
  {
    if xs == [] then []
    else (if idOf(xs[0]) != id then [xs[0]] else []) + RemoveById(xs[1..], idOf, id)
  }

  /** The filter keeps the relative order: it distributes over concatenation. */
  lemma {:induction false} RemoveByIdConcat<T>(a: seq<T>, b: seq<T>, idOf: T -> SubId, id: SubId)
    ensures RemoveById(a + b, idOf, id) == RemoveById(a, idOf, id) + RemoveById(b, idOf, id)
  {
    if a != [] {
      assert (a + b)[0] == a[0];
      assert (a + b)[1..] == a[1..] + b;
      RemoveByIdConcat(a[1..], b, idOf, id);
    } else {
      assert a + b == b;
    }
  }

  /** Removing an id that no entry carries leaves the list unchanged. */
  lemma {:induction false} RemoveAbsentId<T>(xs: seq<T>, idOf: T -> SubId, id: SubId)
    requires forall i :: 0 <= i < |xs| ==> idOf(xs[i]) != id
    ensures RemoveById(xs, idOf, id) == xs
  {
    if xs != [] {
      RemoveAbsentId(xs[1..], idOf, id);
      assert [xs[0]] + xs[1..] == xs;
    }
  }

  /** Deleting the same id twice is the same as deleting it once. */
  lemma RemoveByIdIdempotent<T>(xs: seq<T>, idOf: T -> SubId, id: SubId)
    ensures RemoveById(RemoveById(xs, idOf, id), idOf, id) == RemoveById(xs, idOf, id)
  {
    var r := RemoveById(xs, idOf, id);
    RemoveAbsentId(r, idOf, id);
  }

  /** Deleting the id of an entry just put in front gives back the list it was put in front of. */
  lemma RemoveUndoesPrepend<T>(x: T, xs: seq<T>, idOf: T -> SubId)
    requires forall i :: 0 <= i < |xs| ==> idOf(xs[i]) != idOf(x)
    ensures RemoveById([x] + xs, idOf, idOf(x)) == xs
  {
    assert ([x] + xs)[1..] == xs;
    RemoveAbsentId(xs, idOf, idOf(x));
  }

  /** Removing entries keeps the ids unique. */
  lemma {:induction false} RemoveKeepsUnique<T>(xs: seq<T>, idOf: T -> SubId, id: SubId)
    requires UniqueIds(xs, idOf)
    ensures UniqueIds(RemoveById(xs, idOf, id), idOf)
  {
    if xs != [] {
      var tail := xs[1..];
      assert UniqueIds(tail, idOf) by {
        forall i, j | 0 <= i < j < |tail| ensures idOf(tail[i]) != idOf(tail[j]) {
          assert tail[i] == xs[i + 1] && tail[j] == xs[j + 1];
        }
      }
      RemoveKeepsUnique(tail, idOf, id);
      var rest := RemoveById(tail, idOf, id);
      if idOf(xs[0]) != id {
        var r := [xs[0]] + rest;
        forall j | 0 <= j < |rest| ensures idOf(xs[0]) != idOf(rest[j]) {
          var k :| 0 <= k < |tail| && tail[k] == rest[j];
          assert tail[k] == xs[k + 1];
        }
        forall i, j | 0 <= i < j < |r| ensures idOf(r[i]) != idOf(r[j]) {
          assert r[j] == rest[j - 1];
          if i > 0 { assert r[i] == rest[i - 1]; }
        }
      } else {
        assert RemoveById(xs, idOf, id) == [] + rest;
      }
    }
  }

  /** Deleting the id of an entry no other entry carries removes exactly that entry. */
  lemma RemoveSoleEntry<T>(before: seq<T>, x: T, after: seq<T>, idOf: T -> SubId)
    requires forall k :: 0 <= k < |before| ==> idOf(before[k]) != idOf(x)
    requires forall k :: 0 <= k < |after| ==> idOf(after[k]) != idOf(x)
    ensures RemoveById(before + [x] + after, idOf, idOf(x)) == before + after
  {
    var id := idOf(x);
    RemoveAbsentId(before, idOf, id);
    RemoveAbsentId(after, idOf, id);
    assert RemoveById([x], idOf, id) == [] by {
      assert [x][1..] == [];
    }
    RemoveByIdConcat(before + [x], after, idOf, id);
    RemoveByIdConcat(before, [x], idOf, id);
    assert before + [] == before;
  }

  /** With unique ids, deleting the id of entry `i` removes exactly that entry. */
  lemma RemoveExactlyOne<T>(xs: seq<T>, idOf: T -> SubId, i: nat)
    requires UniqueIds(xs, idOf)
    requires i < |xs|
    ensures RemoveById(xs, idOf, idOf(xs[i])) == xs[..i] + xs[i + 1..]
  {
    var before, after := xs[..i], xs[i + 1..];
    forall k | 0 <= k < |before| ensures idOf(before[k]) != idOf(xs[i]) {
      assert before[k] == xs[k];
    }
    forall k | 0 <= k < |after| ensures idOf(after[k]) != idOf(xs[i]) {
      assert after[k] == xs[i + 1 + k];
    }
    assert xs == before + [xs[i]] + after;
    RemoveSoleEntry(before, xs[i], after, idOf);
  }

  /** `profile.experience.unshift(e)` */
  function AddExperience(p: Profile, e: Experience): Profile {
    p.(experience := [e] + p.experience)
  }

  /** `profile.experience = profile.experience.filter(...)` */
  function RemoveExperience(p: Profile, id: SubId): Profile {
    p.(experience := RemoveById(p.experience, ExperienceId, id))
  }

  /** `profile.education.unshift(e)` */
  function AddEducation(p: Profile, e: Education): Profile {
    p.(education := [e] + p.education)
  }

  /** `profile.education = profile.education.filter(...)` */
  function RemoveEducation(p: Profile, id: SubId): Profile {
    p.(education := RemoveById(p.education, EducationId, id))
  }

  /** Deleting a freshly added experience entry by its id restores the profile. */
  lemma RemoveExperienceUndoesAdd(p: Profile, e: Experience)
    requires forall i :: 0 <= i < |p.experience| ==> p.experience[i].id != e.id
    ensures RemoveExperience(AddExperience(p, e), e.id) == p
  {
    RemoveUndoesPrepend(e, p.experience, ExperienceId);
  }

  /** Deleting a freshly added education entry by its id restores the profile. */
  lemma RemoveEducationUndoesAdd(p: Profile, e: Education)
    requires forall i :: 0 <= i < |p.education| ==> p.education[i].id != e.id
    ensures RemoveEducation(AddEducation(p, e), e.id) == p
  {
    RemoveUndoesPrepend(e, p.education, EducationId);
  }
}
