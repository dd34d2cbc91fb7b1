/**
 * The profile page: the nested form record it edits, filled from the stored profile with
 * defaults for what is missing, updated field by field through dotted input names
 * (`address.city`, `preferences.language`, `preferences.notifications.email`), given a new
 * avatar when the chosen image is small enough, and saved.
 * The form is a JavaScript object, modelled as the field map of a JSON object.
 */
module ProfilePage {
  import opened Wrappers
  import opened Json
  import opened ApiCalls

  type Form = map<string, JsonValue>

  /** `s.split(sep)`: the pieces between separators, in order; there is one piece more than
      there are separators. */
  function SplitOn(s: string, sep: char): (r: seq<string>)
    ensures |r| >= 1
    ensures forall i :: 0 <= i < |r| ==> sep !in r[i]
    decreases |s|
  {
    if s == [] then [""]
    else
      var rest := SplitOn(s[1..], sep);
      if s[0] == sep then [""] + rest
      else [[s[0]] + rest[0]] + rest[1..]
  }

  /** `parts.join(sep)`. */
  function JoinOn(parts: seq<string>, sep: char): string
    requires |parts| >= 1
    decreases |parts|
  {
    if |parts| == 1 then parts[0] else parts[0] + [sep] + JoinOn(parts[1..], sep)
  }

  /** Splitting loses nothing: joining the pieces gives the string back. */
  lemma {:induction false} JoinSplit(s: string, sep: char)
    ensures JoinOn(SplitOn(s, sep), sep) == s
    decreases |s|
  {
    if s != [] {
      var rest := SplitOn(s[1..], sep);
      JoinSplit(s[1..], sep);
      if s[0] == sep {
        assert ([""] + rest)[1..] == rest;
      } else {
        var parts := [[s[0]] + rest[0]] + rest[1..];
        if |rest| > 1 {
          assert parts[1..] == rest[1..];
          assert JoinOn(rest, sep) == rest[0] + [sep] + JoinOn(rest[1..], sep);
        }
        assert s == [s[0]] + s[1..];
      }
    }
  }

  /** A piece with no separator, then a separator: the piece comes first. */
  lemma {:induction false} SplitAfterPiece(a: string, b: string, sep: char)
    requires sep !in a
    ensures SplitOn(a + [sep] + b, sep) == [a] + SplitOn(b, sep)
    decreases |a|
  {
    if a == [] {
      assert ([sep] + b)[1..] == b;
    } else {
      assert (a + [sep] + b)[1..] == a[1..] + [sep] + b;
      SplitAfterPiece(a[1..], b, sep);
      assert [a[0]] + a[1..] == a;
    }
  }

  /** A string with no separator is one piece. */
  lemma {:induction false} SplitNoSeparator(b: string, sep: char)
    requires sep !in b
    ensures SplitOn(b, sep) == [b]
    decreases |b|
  {
    if b != [] {
      SplitNoSeparator(b[1..], sep);
      assert [b[0]] + b[1..] == b;
    }
  }

  /** `name.split(".")[k]` used as a computed key: a missing piece is `undefined`, which
      becomes the key `"undefined"`. */
  function Part(name: string, k: nat): string {
    var parts := SplitOn(name, '.');
    if k < |parts| then parts[k] else "undefined"
  }

  /** The pieces of `head.f`. */
  lemma PartsOfTwo(head: string, f: string)
    requires '.' !in head && '.' !in f
    ensures Part(head + "." + f, 1) == f && Part(head + "." + f, 2) == "undefined"
  {
    SplitAfterPiece(head, f, '.');
    SplitNoSeparator(f, '.');
  }

  /** The pieces of `head.f.g`. */
  lemma PartsOfThree(head: string, f: string, g: string)
    requires '.' !in head && '.' !in f && '.' !in g
    ensures Part(head + "." + f + "." + g, 1) == f && Part(head + "." + f + "." + g, 2) == g
  {
    assert head + "." + f + "." + g == head + ['.'] + (f + ['.'] + g);
    SplitAfterPiece(head, f + ['.'] + g, '.');
    SplitAfterPiece(f, g, '.');
    SplitNoSeparator(g, '.');
  }

  predicate StartsWith(s: string, prefix: string) {
    |prefix| <= |s| && s[..|prefix|] == prefix
  }

  /** `form.k`, undefined when the form has no such field. */
  function Prop(form: Form, k: string): Option<JsonValue> {
    if k in form then Some(form[k]) else None
  }

  /** `{...v}` of a value that may be undefined. */
  function SpreadOpt(v: Option<JsonValue>): map<string, JsonValue> {
    if v.Some? then Spread(v.value) else map[]
  }

  /** The form after `handleChange`, or `None` when reading `formData.preferences.notifications`
      throws because `preferences` is undefined or null. */
  function Changed(form: Form, name: string, value: string, checked: bool): (r: Option<Form>)
    ensures r.Some? ==> form.Keys <= r.value.Keys
    ensures r.None? <==>
              && !StartsWith(name, "address.") && StartsWith(name, "preferences.") && Part(name, 1) == "notifications"
              && (Prop(form, "preferences").None? || Prop(form, "preferences").value.JNull?)
  {
    if StartsWith(name, "address.") then
      Some(form["address" := JObj(SpreadOpt(Prop(form, "address"))[Part(name, 1) := JStr(value)])])
    else if StartsWith(name, "preferences.") then
      var prefs := Prop(form, "preferences");
      if Part(name, 1) == "notifications" then
        if prefs.None? || prefs.value.JNull? then None
        else
          var notifications := SpreadOpt(Get(prefs.value, "notifications"))[Part(name, 2) := JBool(checked)];
          Some(form["preferences" := JObj(Spread(prefs.value)["notifications" := JObj(notifications)])])
      else
        Some(form["preferences" := JObj(SpreadOpt(prefs)[Part(name, 1) := JStr(value)])])
    else
      Some(form[name := JStr(value)])
  }

  /** `after` differs from `before` only at key `k`, which now holds `v`. */
  predicate OnlySet(before: Form, after: Form, k: string, v: JsonValue) {
    && after.Keys == before.Keys + {k}
    && after[k] == v
    && forall j :: j in before && j != k ==> after[j] == before[j]
  }

  /** `"address.F"` sets `address.F` and nothing else. */
  lemma AddressChange(form: Form, f: string, value: string, checked: bool)
    requires '.' !in f
    ensures var r := Changed(form, "address." + f, value, checked);
      && r.Some?
      && r.value.Keys == form.Keys + {"address"}
      && (forall k :: k in form && k != "address" ==> r.value[k] == form[k])
      && r.value["address"].JObj?
      && OnlySet(SpreadOpt(Prop(form, "address")), r.value["address"].fields, f, JStr(value))
  {
    var name := "address." + f;
    assert name == "address" + "." + f;
    PartsOfTwo("address", f);
    assert name[..|"address."|] == "address.";
  }

  /** `"preferences.notifications.F"` sets `preferences.notifications.F` to the checkbox's state
      and nothing else, once the form has its preferences. */
  lemma NotificationChange(form: Form, f: string, value: string, checked: bool)
    requires '.' !in f
    requires "preferences" in form && !form["preferences"].JNull?
    ensures var r := Changed(form, "preferences.notifications." + f, value, checked);
      && r.Some?
      && r.value.Keys == form.Keys
      && (forall k :: k in form && k != "preferences" ==> r.value[k] == form[k])
      && r.value["preferences"].JObj?
      && r.value["preferences"].fields.Keys == Spread(form["preferences"]).Keys + {"notifications"}
      && (forall k :: k in Spread(form["preferences"]) && k != "notifications" ==>
            r.value["preferences"].fields[k] == form["preferences"].fields[k])
      && r.value["preferences"].fields["notifications"].JObj?
      && OnlySet(SpreadOpt(Get(form["preferences"], "notifications")),
                 r.value["preferences"].fields["notifications"].fields, f, JBool(checked))
  {
    var name := "preferences.notifications." + f;
    assert name == "preferences" + "." + "notifications" + "." + f;
    PartsOfThree("preferences", "notifications", f);
    assert name[..|"preferences."|] == "preferences.";
    assert !StartsWith(name, "address.") by {
      assert name[0] != "address."[0];
    }
  }

  /** Without preferences in the form, a notification checkbox throws and nothing changes. */
  lemma NotificationChangeThrows(form: Form, f: string, value: string, checked: bool)
    requires '.' !in f
    requires "preferences" !in form || form["preferences"].JNull?
    ensures Changed(form, "preferences.notifications." + f, value, checked).None?
  {
    var name := "preferences.notifications." + f;
    assert name == "preferences" + "." + "notifications" + "." + f;
    PartsOfThree("preferences", "notifications", f);
    assert name[..|"preferences."|] == "preferences.";
    assert name[0] != "address."[0];
  }

  /** `"preferences.F"`, for F other than `notifications`, sets `preferences.F` and nothing else. */
  lemma PreferenceChange(form: Form, f: string, value: string, checked: bool)
    requires '.' !in f && f != "notifications"
    ensures var r := Changed(form, "preferences." + f, value, checked);
      && r.Some?
      && r.value.Keys == form.Keys + {"preferences"}
      && (forall k :: k in form && k != "preferences" ==> r.value[k] == form[k])
      && r.value["preferences"].JObj?
      && OnlySet(SpreadOpt(Prop(form, "preferences")), r.value["preferences"].fields, f, JStr(value))
  {
    var name := "preferences." + f;
    assert name == "preferences" + "." + f;
    PartsOfTwo("preferences", f);
    assert name[..|"preferences."|] == "preferences.";
    assert name[0] != "address."[0];
  }

  /** A name outside `address.` and `preferences.` sets that top-level field only. */
  lemma TopLevelChange(form: Form, name: string, value: string, checked: bool)
    requires !StartsWith(name, "address.") && !StartsWith(name, "preferences.")
    ensures Changed(form, name, value, checked).Some?
    ensures OnlySet(form, Changed(form, name, value, checked).value, name, JStr(value))
  {
  }

  /** `res.data.k || d`. */
  function OrText(data: JsonValue, k: string, d: string): (v: JsonValue)
    ensures Present(Get(data, k)) ==> v == data.fields[k]
    ensures !Present(Get(data, k)) ==> v == JStr(d)
  {
    Or(Get(data, k), JStr(d))
  }

  /** `a ?? d`: only undefined and null fall back. */
  function Nullish(a: Option<JsonValue>, d: JsonValue): (v: JsonValue)
    ensures a.None? || a.value.JNull? ==> v == d
    ensures a.Some? && !a.value.JNull? ==> v == a.value
  {
    if a.None? || a.value.JNull? then d else a.value
  }

  /** Unlike `||`, `??` keeps a received value that is falsy but defined: a `false` flag stays
      `false`. On a truthy, undefined or null value the two agree. */
  lemma NullishKeepsFalsy(a: Option<JsonValue>, d: JsonValue)
    ensures Present(a) || a.None? || a.value.JNull? ==> Nullish(a, d) == Or(a, d)
    ensures a.Some? && !a.value.JNull? && !Truthy(a.value) ==> Nullish(a, d) == a.value
    ensures Nullish(Some(JBool(false)), JBool(true)) == JBool(false) != Or(Some(JBool(false)), JBool(true))
  {
  }

  const TextFields: set<string> := {"firstName", "lastName", "bio", "phone", "avatar", "department", "specialization"}
  const AddressFields: set<string> := {"street", "city", "country", "postalCode"}
  const FormFields: set<string> := TextFields + {"address", "preferences"}

  /** The form the page starts with: empty texts, language `"fr"`, difficulty `"medium"` and
      both notification flags on. */
  function InitialForm(): Form {
    map k | k in FormFields ::
      if k == "address" then JObj(map a | a in AddressFields :: JStr(""))
      else if k == "preferences" then JObj(DefaultPreferences())
      else JStr("")
  }

  function DefaultPreferences(): Form {
    map["language" := JStr("fr"), "difficulty" := JStr("medium"),
        "notifications" := JObj(map n | n in NotificationFields :: JBool(true))]
  }

  const NotificationFields: set<string> := {"email", "push"}

  /** The address part of a loaded form: each field keeps a truthy value and is `""` otherwise. */
  function AddressOf(data: JsonValue): (a: Form)
    ensures a.Keys == AddressFields
    ensures forall k :: k in a ==> a[k] == JStr("") || Truthy(a[k])
    ensures Get(data, "address").None? ==> forall k :: k in a ==> a[k] == JStr("")
    ensures forall k :: k in AddressFields ==> a[k] == OrText(OrAbsent(Get(data, "address")), k, "")
  {
    map k | k in AddressFields :: OrText(OrAbsent(Get(data, "address")), k, "")
  }

  /** A value that may be undefined, read as an object with no fields when it is. */
  function OrAbsent(v: Option<JsonValue>): JsonValue {
    if v.Some? then v.value else JObj(map[])
  }

  /** The notification flags of a loaded form: each defaults to true when it is undefined or
      null; a received `false` is kept. */
  function NotificationsOf(prefs: JsonValue): (n: Form)
    ensures n.Keys == NotificationFields
    ensures forall k :: k in NotificationFields ==>
              n[k] == Nullish(GetIn(Get(prefs, "notifications"), k), JBool(true))
  {
    map k | k in NotificationFields :: Nullish(GetIn(Get(prefs, "notifications"), k), JBool(true))
  }

  /** The preferences part of a loaded form: the language defaults to `"fr"` and the difficulty
      to `"medium"` unless truthy; the notification flags are filled as above. */
  function PreferencesOf(data: JsonValue): (p: Form)
    ensures p.Keys == {"language", "difficulty", "notifications"}
    ensures var prefs := Get(data, "preferences");
      && (!Present(GetIn(prefs, "language")) ==> p["language"] == JStr("fr"))
      && (Present(GetIn(prefs, "language")) ==> p["language"] == GetIn(prefs, "language").value)
      && (!Present(GetIn(prefs, "difficulty")) ==> p["difficulty"] == JStr("medium"))
      && (Present(GetIn(prefs, "difficulty")) ==> p["difficulty"] == GetIn(prefs, "difficulty").value)
    ensures p["notifications"] == JObj(NotificationsOf(OrAbsent(Get(data, "preferences"))))
  {
    var prefs := OrAbsent(Get(data, "preferences"));
    map["language" := OrText(prefs, "language", "fr"), "difficulty" := OrText(prefs, "difficulty", "medium"),
        "notifications" := JObj(NotificationsOf(prefs))]
  }

  /** One field of a loaded form. */
  function LoadedField(data: JsonValue, k: string): JsonValue {
    if k == "address" then JObj(AddressOf(data))
    else if k == "preferences" then JObj(PreferencesOf(data))
    else OrText(data, k, "")
  }

  /** The form filled from a received profile: a text field keeps a truthy value and is `""`
      otherwise; the address and the preferences are filled as above. */
  function LoadedForm(data: JsonValue): (f: Form)
    ensures f.Keys == FormFields
    ensures forall k :: k in TextFields ==> f[k] == OrText(data, k, "")
    ensures f["address"] == JObj(AddressOf(data)) && f["preferences"] == JObj(PreferencesOf(data))
  {
    map k | k in FormFields :: LoadedField(data, k)
  }

  /** A profile holding none of the fields loads as the starting form. */
  lemma LoadEmpty()
    ensures LoadedForm(JObj(map[])) == InitialForm()
  {
    var f := LoadedForm(JObj(map[]));
    assert AddressOf(JObj(map[])) == map a | a in AddressFields :: JStr("");
    assert NotificationsOf(JObj(map[])) == map n | n in NotificationFields :: JBool(true);
    assert PreferencesOf(JObj(map[])) == DefaultPreferences();
    forall k | k in FormFields ensures f[k] == InitialForm()[k] { }
  }

  /** Loading a loaded form again changes nothing. */
  lemma LoadIdempotent(data: JsonValue)
    ensures LoadedForm(JObj(LoadedForm(data))) == LoadedForm(data)
  {
    var f := LoadedForm(data);
    AddressReloads(data);
    PreferencesReload(data);
    forall k | k in FormFields ensures LoadedForm(JObj(f))[k] == f[k] { }
  }

  /** Reading the address of a loaded form again gives the same address. */
  lemma AddressReloads(data: JsonValue)
    ensures AddressOf(JObj(LoadedForm(data))) == AddressOf(data)
  {
    var f := LoadedForm(data);
    assert Get(JObj(f), "address") == Some(JObj(AddressOf(data)));
    forall k | k in AddressFields ensures AddressOf(JObj(f))[k] == AddressOf(data)[k] { }
  }

  lemma NotificationsReload(data: JsonValue)
    ensures NotificationsOf(JObj(PreferencesOf(data))) == NotificationsOf(OrAbsent(Get(data, "preferences")))
  {
    var n := NotificationsOf(OrAbsent(Get(data, "preferences")));
    assert Get(JObj(PreferencesOf(data)), "notifications") == Some(JObj(n));
    forall k | k in NotificationFields
      ensures NotificationsOf(JObj(PreferencesOf(data)))[k] == n[k]
    { }
  }

  lemma PreferencesReload(data: JsonValue)
    ensures PreferencesOf(JObj(LoadedForm(data))) == PreferencesOf(data)
  {
    var f := LoadedForm(data);
    assert Get(JObj(f), "preferences") == Some(JObj(PreferencesOf(data)));
    NotificationsReload(data);
  }

  /** A chosen image file: its size in bytes and its contents as a data URL. */
  datatype ImageFile = ImageFile(size: int, dataUrl: string)

  const MaxAvatarBytes := 500000

  class ProfilePageState {
    var profile: JsonValue
    var loading: bool
    var editing: bool
    var saving: bool
    var formData: Form

    constructor ()
      ensures profile == JNull && loading && !editing && !saving && formData == InitialForm()
    {
      profile, loading, editing, saving := JNull, true, false, false;
      formData := InitialForm();
    }

    /** `loadProfile`: the reply becomes the profile; a non-null reply fills the form
        (reading fields of a null reply throws before the form is set). Loading ends either way. */
    method LoadProfile(reply: CallOutcome)
      modifies this
      ensures !loading && editing == old(editing) && saving == old(saving)
      ensures reply.Answered? ==> profile == reply.data
      ensures reply.Failed? ==> profile == old(profile)
      ensures Usable(reply) ==> formData == LoadedForm(reply.data)
      ensures !Usable(reply) ==> formData == old(formData)
    {
      if reply.Answered? {
        profile := reply.data;
        if !reply.data.JNull? {
          formData := LoadedForm(reply.data);
        }
      }
      loading := false;
    }

    /** `handleSave`: the form is sent; the saved profile replaces the shown one and editing
        ends when the call succeeds. */
    method HandleSave(reply: CallOutcome) returns (request: Form)
      modifies this
      ensures request == old(formData) && formData == old(formData) && !saving && loading == old(loading)
      ensures reply.Answered? ==> profile == reply.data && !editing
      ensures reply.Failed? ==> profile == old(profile) && editing == old(editing)
    {
      saving := true;
      request := formData;
      if reply.Answered? {
        profile := reply.data;
        editing := false;
      }
      saving := false;
    }

    /** `handleChange`: the form is replaced by its update; `thrown` when the update throws,
        and then the form is left as it was. */
    method HandleChange(name: string, value: string, checked: bool) returns (thrown: bool)
      modifies this
      ensures thrown <==> Changed(old(formData), name, value, checked).None?
      ensures !thrown ==> formData == Changed(old(formData), name, value, checked).value
      ensures thrown ==> formData == old(formData)
      ensures profile == old(profile) && loading == old(loading) && editing == old(editing) && saving == old(saving)
    {
      var r := Changed(formData, name, value, checked);
      if r.None? {
        return true;
      }
      formData := r.value;
      return false;
    }

    /** `handleAvatarChange`: with no file nothing happens; a file over 500000 bytes is rejected
        and the form is left as it was; otherwise the image becomes the avatar. */
    method HandleAvatarChange(file: Option<ImageFile>) returns (rejected: bool)
      modifies this
      ensures rejected <==> file.Some? && file.value.size > MaxAvatarBytes
      ensures file.None? || rejected ==> formData == old(formData)
      ensures file.Some? && !rejected ==> OnlySet(old(formData), formData, "avatar", JStr(file.value.dataUrl))
      ensures profile == old(profile) && loading == old(loading) && editing == old(editing) && saving == old(saving)
    {
      if file.None? {
        return false;
      }
      if file.value.size > MaxAvatarBytes {
        return true;
      }
      formData := formData["avatar" := JStr(file.value.dataUrl)];
      return false;
    }
  }
}
