/**
 * The one-to-one profile of a user: read (creating a default profile on first access),
 * create-or-update from a request body, and delete. A profile is found by its `user`
 * field; the user's `profile` reference is kept pointing at it.
 */
module UserProfileController {
  import opened Wrappers
  import opened Json
  import opened Text
  import opened Records

  /** Some profile belongs to `user`. */
  predicate HasProfile(profiles: map<Id, Profile>, user: Id) {
    exists id :: id in profiles && profiles[id].user == user
  }

  /** With the user references in place, a user has a profile exactly when the user references one,
      and that profile is the only one whose `user` is that user. */
  lemma HasProfileIffLinked(profiles: map<Id, Profile>, profileOf: map<Id, Id>, user: Id)
    requires ProfileLinks(profiles, profileOf)
    ensures HasProfile(profiles, user) <==> user in profileOf
    ensures forall id :: id in profiles && profiles[id].user == user ==> user in profileOf && id == profileOf[user]
  {
    if user in profileOf {
      assert profiles[profileOf[user]].user == user;
    }
  }

  /** The profile created for a user who has none: schema defaults only. */
  function DefaultProfile(user: Id): (p: Profile)
    ensures ProfileValid(p)
    ensures p.user == user && p.preferences == DefaultPreferences
    ensures p.fields.Keys == {"avatar"} && p.fields["avatar"] == JStr("")
  {
    Profile(user, map["avatar" := JStr("")], DefaultPreferences)
  }

  /** Adding a valid profile, under a fresh id, for a user without one keeps the profile table valid. */
  lemma InsertKeepsProfilesValid(profiles: map<Id, Profile>, profileOf: map<Id, Id>, nextId: nat, id: Id, profile: Profile)
    requires ProfilesValid(profiles, profileOf, nextId)
    requires id < nextId && id !in profiles && profile.user !in profileOf && ProfileValid(profile)
    ensures ProfilesValid(profiles[id := profile], profileOf[profile.user := id], nextId)
  {
    var ps, links := profiles[id := profile], profileOf[profile.user := id];
    forall u | u in links
      ensures links[u] in ps && ps[links[u]].user == u
    {
      if u != profile.user {
        assert profileOf[u] in profiles && profileOf[u] != id;
      }
    }
    forall a | a in ps
      ensures ps[a].user in links && links[ps[a].user] == a
    {
      if a != id {
        assert profiles[a].user in profileOf;
      }
    }
  }

  /** Saving a valid profile over its user's profile keeps the profile table valid. */
  lemma ReplaceKeepsProfilesValid(profiles: map<Id, Profile>, profileOf: map<Id, Id>, nextId: nat, profile: Profile)
    requires ProfilesValid(profiles, profileOf, nextId)
    requires profile.user in profileOf && ProfileValid(profile)
    ensures ProfilesValid(profiles[profileOf[profile.user] := profile], profileOf, nextId)
  {
    var id := profileOf[profile.user];
    var ps := profiles[id := profile];
    forall a | a in ps
      ensures ps[a].user in profileOf && profileOf[ps[a].user] == a
    {
      if a != id {
        assert profiles[a].user in profileOf;
      }
    }
  }

  /** Deleting a user's profile and the user's reference to it keeps the profile table valid. */
  lemma DeleteKeepsProfilesValid(profiles: map<Id, Profile>, profileOf: map<Id, Id>, nextId: nat, user: Id)
    requires ProfilesValid(profiles, profileOf, nextId)
    requires user in profileOf
    ensures ProfilesValid(profiles - {profileOf[user]}, profileOf - {user}, nextId)
  {
    var id := profileOf[user];
    var ps, links := profiles - {id}, profileOf - {user};
    forall u | u in links
      ensures links[u] in ps && ps[links[u]].user == u
    {
      assert profiles[profileOf[u]].user == u;
    }
    forall a | a in ps
      ensures ps[a].user in links && links[ps[a].user] == a
    {
      assert profiles[a].user in profileOf && profileOf[profiles[a].user] == a;
    }
  }

  /** Saves new profile and reference tables that keep their invariants. */
  method SaveProfiles(db: Database, profiles: map<Id, Profile>, profileOf: map<Id, Id>)
    requires db.Valid() && ProfilesValid(profiles, profileOf, db.nextId)
    modifies db
    ensures db.Valid()
    ensures db.profiles == profiles && db.profileOf == profileOf && db.nextId == old(db.nextId)
    ensures db.courses == old(db.courses) && db.exercises == old(db.exercises)
    ensures db.enrollments == old(db.enrollments) && db.submissions == old(db.submissions)
  {
    db.profiles, db.profileOf := profiles, profileOf;
  }

  /** Stores a new profile for a user who has none and links it to the user. */
  method InsertProfile(db: Database, profile: Profile) returns (id: Id)
    requires db.Valid() && profile.user !in db.profileOf && ProfileValid(profile)
    modifies db
    ensures db.Valid()
    ensures id !in old(db.profiles)
    ensures db.profiles == old(db.profiles)[id := profile]
    ensures db.profileOf == old(db.profileOf)[profile.user := id]
    ensures db.courses == old(db.courses) && db.exercises == old(db.exercises)
    ensures db.enrollments == old(db.enrollments) && db.submissions == old(db.submissions)
  {
    id := db.NewId();
    InsertKeepsProfilesValid(db.profiles, db.profileOf, db.nextId, id, profile);
    SaveProfiles(db, db.profiles[id := profile], db.profileOf[profile.user := id]);
  }

  /** Saves a profile over the one its user already has. */
  method ReplaceProfile(db: Database, profile: Profile)
    requires db.Valid() && profile.user in db.profileOf && ProfileValid(profile)
    modifies db
    ensures db.Valid()
    ensures db.profiles == old(db.profiles)[old(db.profileOf)[profile.user] := profile]
    ensures db.profileOf == old(db.profileOf) && db.nextId == old(db.nextId)
    ensures db.courses == old(db.courses) && db.exercises == old(db.exercises)
    ensures db.enrollments == old(db.enrollments) && db.submissions == old(db.submissions)
  {
    ReplaceKeepsProfilesValid(db.profiles, db.profileOf, db.nextId, profile);
    SaveProfiles(db, db.profiles[db.profileOf[profile.user] := profile], db.profileOf);
  }

  /** `getMyProfile`: the user's profile, created with defaults and linked to the user when missing. */
  method GetMyProfile(db: Database, user: Id) returns (profile: Profile)
    requires db.Valid()
    modifies db
    ensures db.Valid()
    ensures user in old(db.profileOf) ==> profile == old(db.profiles)[old(db.profileOf)[user]] && unchanged(db)
    ensures user !in old(db.profileOf) ==>
      && profile == DefaultProfile(user)
      && user in db.profileOf
      && db.profileOf[user] !in old(db.profiles)
      && db.profiles == old(db.profiles)[db.profileOf[user] := profile]
      && db.profileOf == old(db.profileOf)[user := db.profileOf[user]]
    ensures user in db.profileOf && db.profiles[db.profileOf[user]] == profile
    ensures profile.user == user
    ensures db.courses == old(db.courses) && db.exercises == old(db.exercises)
    ensures db.enrollments == old(db.enrollments) && db.submissions == old(db.submissions)
  {
    HasProfileIffLinked(db.profiles, db.profileOf, user);
    if HasProfile(db.profiles, user) {
      var id :| id in db.profiles && db.profiles[id].user == user;
      return db.profiles[id];
    }
    profile := DefaultProfile(user);
    var id := InsertProfile(db, profile);
  }

  /** `getProfileByUserId`: the profile of any user, or 404. */
  method GetProfileByUserId(db: Database, userId: Id) returns (r: Outcome<Profile>)
    requires db.Valid()
    ensures r.Done? || r.Refused?
    ensures r.Refused? <==> !HasProfile(db.profiles, userId)
    ensures r.Refused? ==> r == Refused(404, "Profile not found")
    ensures r.Done? ==> r.status == 200 && userId in db.profileOf && r.value == db.profiles[db.profileOf[userId]]
  {
    HasProfileIffLinked(db.profiles, db.profileOf, userId);
    if !HasProfile(db.profiles, userId) {
      return Refused(404, "Profile not found");
    }
    var id :| id in db.profiles && db.profiles[id].user == userId;
    return Done(200, db.profiles[id]);
  }

  // ---------------------------------------------------------------------------
  // Create or update
  // ---------------------------------------------------------------------------

  /** The value the schema stores for a field: the trimmed string for the fields declared `trim`. */
  function Stored(name: string, v: JsonValue): JsonValue {
    if name in TrimmedFields && v.JStr? then JStr(Trim(v.s)) else v
  }

  /** The profile fields a request body provides (a key absent from the body is undefined). */
  function Provided(body: map<string, JsonValue>): (given: map<string, JsonValue>)
    ensures forall k :: k in given <==> k in body && k in ProfileFields
    ensures forall k :: k in given ==> given[k] == Stored(k, body[k])
  {
    ProvidedAmong(body, ProfileFields)
  }

  /** The stored values of the body's keys among `names`. */
  function ProvidedAmong(body: map<string, JsonValue>, names: set<string>): map<string, JsonValue> {
    map k | k in body && k in names :: Stored(k, body[k])
  }

  /** One more `if (name !== undefined)` assignment extends the provided keys by `name`. */
  lemma AssignStep(before: map<string, JsonValue>, fields: map<string, JsonValue>, body: map<string, JsonValue>,
                   done: set<string>, name: string)
    requires fields == before + ProvidedAmong(body, done)
    ensures Assign(fields, body, name) == before + ProvidedAmong(body, done + {name})
  {
    var after := Assign(fields, body, name);
    var target := before + ProvidedAmong(body, done + {name});
    assert after.Keys == target.Keys;
    forall k | k in after ensures after[k] == target[k] {
    }
  }

  /** `after` is `before` with exactly the keys of `given` overwritten: a provided key takes the given
      value, every other key is kept as it was (present or absent). */
  predicate OverwritesProvided(before: map<string, JsonValue>, after: map<string, JsonValue>, given: map<string, JsonValue>) {
    && (forall k :: k in given ==> k in after && after[k] == given[k])
    && (forall k :: k in before && k !in given ==> k in after && after[k] == before[k])
    && (forall k :: k in after ==> k in given || k in before)
  }

  /** A shallow merge `{ ...before, ...given }` overwrites exactly the given keys. */
  lemma MergeOverwritesProvided(before: map<string, JsonValue>, given: map<string, JsonValue>)
    ensures OverwritesProvided(before, before + given, given)
  {
  }

  /** Overwriting the provided keys determines the result: it is the shallow merge. */
  lemma {:induction false} OverwritesProvidedIsMerge(before: map<string, JsonValue>, after: map<string, JsonValue>, given: map<string, JsonValue>)
    requires OverwritesProvided(before, after, given)
    ensures after == before + given
  {
    assert after.Keys == (before + given).Keys;
    forall k | k in after
      ensures after[k] == (before + given)[k]
    {
      if k in given {
      } else {
        assert k in before;
      }
    }
  }

  /** `if (name !== undefined) profile.name = name`. */
  function Assign(fields: map<string, JsonValue>, body: map<string, JsonValue>, name: string): map<string, JsonValue> {
    if name in body then fields[name := Stored(name, body[name])] else fields
  }

  /** The preferences after an update: a shallow merge of the provided object over the old ones. */
  function MergedPreferences(before: map<string, JsonValue>, body: map<string, JsonValue>): (after: map<string, JsonValue>)
    ensures "preferences" !in body ==> after == before
    ensures "preferences" in body ==> OverwritesProvided(before, after, Spread(body["preferences"]))
  {
    if "preferences" in body then before + Spread(body["preferences"]) else before
  }

  /** The profile `UserProfile.create` builds from a body: the avatar default under the provided fields,
      the preference defaults under the provided preferences. */
  function CreatedProfile(user: Id, body: map<string, JsonValue>): (p: Profile)
    ensures p.user == user
    ensures OverwritesProvided(map["avatar" := JStr("")], p.fields, Provided(body))
    ensures p.preferences == MergedPreferences(DefaultPreferences, body)
  {
    Profile(user, map["avatar" := JStr("")] + Provided(body), MergedPreferences(DefaultPreferences, body))
  }

  /** The field-by-field update of an existing profile. */
  method UpdatedProfile(profile: Profile, body: map<string, JsonValue>) returns (updated: Profile)
    ensures updated.user == profile.user
    ensures OverwritesProvided(profile.fields, updated.fields, Provided(body))
    ensures updated.preferences == MergedPreferences(profile.preferences, body)
  {
    var fields := profile.fields;
    var preferences := profile.preferences;
    ghost var done: set<string> := {};
    assert fields == profile.fields + ProvidedAmong(body, done);
    AssignStep(profile.fields, fields, body, done, "firstName");
    fields, done := Assign(fields, body, "firstName"), done + {"firstName"};
    AssignStep(profile.fields, fields, body, done, "lastName");
    fields, done := Assign(fields, body, "lastName"), done + {"lastName"};
    AssignStep(profile.fields, fields, body, done, "bio");
    fields, done := Assign(fields, body, "bio"), done + {"bio"};
    AssignStep(profile.fields, fields, body, done, "avatar");
    fields, done := Assign(fields, body, "avatar"), done + {"avatar"};
    AssignStep(profile.fields, fields, body, done, "phone");
    fields, done := Assign(fields, body, "phone"), done + {"phone"};
    AssignStep(profile.fields, fields, body, done, "address");
    fields, done := Assign(fields, body, "address"), done + {"address"};
    if "preferences" in body {
      preferences := preferences + Spread(body["preferences"]);
    }
    AssignStep(profile.fields, fields, body, done, "department");
    fields, done := Assign(fields, body, "department"), done + {"department"};
    AssignStep(profile.fields, fields, body, done, "specialization");
    fields, done := Assign(fields, body, "specialization"), done + {"specialization"};
    assert done == ProfileFields;
    MergeOverwritesProvided(profile.fields, Provided(body));
    updated := Profile(profile.user, fields, preferences);
  }

  /** `updateMyProfile`: creates the profile from the body and links it when the user has none;
      otherwise overwrites exactly the provided fields and merges the provided preferences.
      A value breaking the schema is a validation error and nothing is saved. */
  method UpdateMyProfile(db: Database, user: Id, body: map<string, JsonValue>) returns (r: Outcome<Profile>)
    requires db.Valid()
    modifies db
    ensures db.Valid()
    ensures r.Done? || r.Invalid?
    ensures r.Invalid? ==> unchanged(db)
    ensures user !in old(db.profileOf) ==>
      (r.Done? <==> ProfileValid(CreatedProfile(user, body)))
      && (r.Done? ==>
            && r == Done(200, CreatedProfile(user, body))
            && user in db.profileOf
            && db.profileOf[user] !in old(db.profiles)
            && db.profiles == old(db.profiles)[db.profileOf[user] := r.value]
            && db.profileOf == old(db.profileOf)[user := db.profileOf[user]])
    ensures user in old(db.profileOf) ==>
      var before := old(db.profiles)[old(db.profileOf)[user]];
      && (r.Done? ==>
            && r.status == 200
            && r.value.user == user
            && OverwritesProvided(before.fields, r.value.fields, Provided(body))
            && r.value.preferences == MergedPreferences(before.preferences, body)
            && db.profiles == old(db.profiles)[old(db.profileOf)[user] := r.value]
            && db.profileOf == old(db.profileOf))
      && (r.Invalid? ==> !ProfileValid(Profile(user, before.fields + Provided(body), MergedPreferences(before.preferences, body))))
    ensures db.courses == old(db.courses) && db.exercises == old(db.exercises)
    ensures db.enrollments == old(db.enrollments) && db.submissions == old(db.submissions)
  {
    HasProfileIffLinked(db.profiles, db.profileOf, user);
    if !HasProfile(db.profiles, user) {
      var created := CreatedProfile(user, body);
      if !ProfileValid(created) {
        return Invalid;
      }
      var id := InsertProfile(db, created);
      return Done(200, created);
    }
    var id :| id in db.profiles && db.profiles[id].user == user;
    var profile := UpdatedProfile(db.profiles[id], body);
    OverwritesProvidedIsMerge(db.profiles[id].fields, profile.fields, Provided(body));
    if !ProfileValid(profile) {
      return Invalid;
    }
    ReplaceProfile(db, profile);
    return Done(200, profile);
  }

  /** `deleteMyProfile`: 404 without a profile; otherwise the profile is deleted and the user's
      reference to it cleared. */
  method DeleteMyProfile(db: Database, user: Id) returns (r: Outcome<string>)
    requires db.Valid()
    modifies db
    ensures db.Valid()
    ensures user !in old(db.profileOf) ==> r == Refused(404, "Profile not found") && unchanged(db)
    ensures user in old(db.profileOf) ==>
      && r == Done(200, "Profile deleted")
      && db.profiles == old(db.profiles) - {old(db.profileOf)[user]}
      && db.profileOf == old(db.profileOf) - {user}
    ensures !HasProfile(db.profiles, user)
    ensures db.courses == old(db.courses) && db.exercises == old(db.exercises)
    ensures db.enrollments == old(db.enrollments) && db.submissions == old(db.submissions)
  {
    HasProfileIffLinked(db.profiles, db.profileOf, user);
    if !HasProfile(db.profiles, user) {
      return Refused(404, "Profile not found");
    }
    var id :| id in db.profiles && db.profiles[id].user == user;
    DeleteKeepsProfilesValid(db.profiles, db.profileOf, db.nextId, user);
    SaveProfiles(db, db.profiles - {id}, db.profileOf - {user});
    return Done(200, "Profile deleted");
  }
}
