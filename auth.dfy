/**
 * Sign-in with GitHub: the strategy's verify callback finds the user by GitHub id or creates
 * one from the profile. The user collection keeps GitHub ids unique and requires an id and a
 * username, as its schema does; `ok` stands for whether the database answers.
 */
module Auth {
  import opened Wrappers

  /** An entry of the profile's `emails` or `photos` list. */
  datatype ProfileValue = ProfileValue(value: Option<string>)

  datatype Profile = Profile(
    id: string, username: Option<string>, displayName: Option<string>,
    emails: Option<seq<ProfileValue>>, profileUrl: Option<string>, photos: Option<seq<ProfileValue>>)

  datatype User = User(
    githubId: string, username: string, displayName: Option<string>,
    email: Option<string>, profileUrl: Option<string>, avatarUrl: Option<string>)

  /** `list?.[0]?.value`. */
  function FirstValue(list: Option<seq<ProfileValue>>): (v: Option<string>)
    ensures v.Some? <==> list.Some? && list.value != [] && list.value[0].value.Some?
    ensures v.Some? ==> v == list.value[0].value
  {
    if list.Some? && list.value != [] then list.value[0].value else None
  }

  /**
   * The user the profile creates, when its id and its username pass the schema's `required`
   * checks (an empty string fails them).
   */
  function NewUser(p: Profile): (u: Option<User>)
    ensures u.Some? <==> p.id != [] && p.username.Some? && p.username.value != []
    ensures u.Some? ==> u.value.githubId == p.id && u.value.username == p.username.value
                        && u.value.email == FirstValue(p.emails) && u.value.avatarUrl == FirstValue(p.photos)
  {
    if p.id != [] && p.username.Some? && p.username.value != [] then
      Some(User(p.id, p.username.value, p.displayName, FirstValue(p.emails), p.profileUrl, FirstValue(p.photos)))
    else None
  }

  /** `User.findOne({githubId})`: the position of the first user with that GitHub id. */
  function FindByGithubId(users: seq<User>, githubId: string): (r: Option<nat>)
    ensures r.Some? ==> r.value < |users| && users[r.value].githubId == githubId
    ensures r.None? ==> forall i :: 0 <= i < |users| ==> users[i].githubId != githubId
  {
    if users == [] then None
    else if users[0].githubId == githubId then Some(0)
    else
      match FindByGithubId(users[1..], githubId)
      case None => None
      case Some(k) => Some(k + 1)
  }

  predicate UniqueIds(users: seq<User>) {
    forall i, j :: 0 <= i < j < |users| ==> users[i].githubId != users[j].githubId
  }

  /** The number of users with a GitHub id. */
  function CountWithId(users: seq<User>, githubId: string): (n: nat)
    ensures n <= |users|
  {
    if users == [] then 0
    else (if users[|users| - 1].githubId == githubId then 1 else 0) + CountWithId(users[..|users| - 1], githubId)
  }

  /** What `done` is called with. */
  datatype Done = SignedIn(user: User) | Refused

  /** The collection after a successful verify: unchanged if the id is known, else one more user. */
  function AfterVerify(users: seq<User>, p: Profile): seq<User> {
    if FindByGithubId(users, p.id).Some? || NewUser(p).None? then users else users + [NewUser(p).value]
  }

  lemma {:induction false} CountWithIdAbsent(users: seq<User>, githubId: string)
    requires forall i :: 0 <= i < |users| ==> users[i].githubId != githubId
    ensures CountWithId(users, githubId) == 0
  {
    if users != [] {
      CountWithIdAbsent(users[..|users| - 1], githubId);
    }
  }

  lemma {:induction false} CountWithIdUnique(users: seq<User>, k: nat)
    requires UniqueIds(users) && k < |users|
    ensures CountWithId(users, users[k].githubId) == 1
  {
    var init := users[..|users| - 1];
    if k == |users| - 1 {
      CountWithIdAbsent(init, users[k].githubId);
    } else {
      CountWithIdUnique(init, k);
    }
  }

  /**
   * After a successful sign-in the profile's GitHub id belongs to exactly one user, the
   * collection keeps its ids unique, and signing in again changes nothing.
   */
  lemma VerifyLeavesOneUser(users: seq<User>, p: Profile)
    requires UniqueIds(users) && (FindByGithubId(users, p.id).Some? || NewUser(p).Some?)
    ensures var after := AfterVerify(users, p);
            && UniqueIds(after) && CountWithId(after, p.id) == 1
            && AfterVerify(after, p) == after
  {
    var after := AfterVerify(users, p);
    match FindByGithubId(users, p.id)
    case Some(k) => CountWithIdUnique(users, k);
    case None =>
      assert after[|after| - 1].githubId == p.id;
      CountWithIdUnique(after, |after| - 1);
      assert FindByGithubId(after, p.id).Some?;
  }

  class UserDirectory {
    var users: seq<User>

    ghost predicate Valid()
      reads this
    {
      UniqueIds(users)
    }

    constructor()
      ensures Valid() && users == []
    {
      users := [];
    }

    /**
     * The verify callback: a known GitHub id signs in its user and creates nothing; an unknown
     * one creates exactly one user from the profile. A database failure, or a profile the
     * schema refuses, is reported as `done(error, null)` and changes nothing.
     */
    method Verify(p: Profile, ok: bool) returns (done: Done)
      requires Valid()
      modifies this
      ensures Valid()
      ensures !ok ==> done == Refused && users == old(users)
      ensures ok && FindByGithubId(old(users), p.id).Some? ==>
                done == SignedIn(old(users)[FindByGithubId(old(users), p.id).value]) && users == old(users)
      ensures ok && FindByGithubId(old(users), p.id).None? ==>
                (NewUser(p).Some? ==> done == SignedIn(NewUser(p).value) && users == old(users) + [NewUser(p).value])
                && (NewUser(p).None? ==> done == Refused && users == old(users))
      ensures ok ==> users == AfterVerify(old(users), p)
    {
      if !ok {
        return Refused;
      }
      var found := FindByGithubId(users, p.id);
      if found.Some? {
        return SignedIn(users[found.value]);
      }
      var created := NewUser(p);
      if created.None? {
        return Refused;
      }
      users := users + [created.value];
      done := SignedIn(created.value);
    }
  }
}
