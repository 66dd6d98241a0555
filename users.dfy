/** A user account record and its public JSON-style projection. */
module Users {
  import opened Wrappers

  /** A user row as the application holds it. Every attribute may be unset
      (`None`), as on a record not yet flushed to the database; `createdAt`
      is the timestamp already rendered in ISO 8601 form. */
  datatype User = User(
    id: Option<int>,
    username: Option<string>,
    email: Option<string>,
    password: Option<string>,
    fullName: Option<string>,
    bio: Option<string>,
    website: Option<string>,
    isPrivate: Option<bool>,
    isVerified: Option<bool>,
    createdAt: Option<string>)

  /** A JSON-style scalar: null, an integer, a string or a boolean. */
  datatype Value = Null | Int(i: int) | Str(s: string) | Bool(b: bool)

  /** The keys of a serialized user: every attribute except `password`. */
  const SerializedKeys: set<string> :=
    {"id", "username", "email", "full_name", "bio", "website", "is_private", "is_verified", "created_at"}

  function IntValue(o: Option<int>): Value
  {
    match o
    case None => Null
    case Some(i) => Int(i)
  }

  function StrValue(o: Option<string>): Value
  {
    match o
    case None => Null
    case Some(s) => Str(s)
  }

  function BoolValue(o: Option<bool>): Value
  {
    match o
    case None => Null
    case Some(b) => Bool(b)
  }

  /** The public view of a user: nine keys, the password never among them,
      and an unset creation time shown as null. */
  function Serialize(u: User): (r: map<string, Value>)
    ensures r.Keys == SerializedKeys
    ensures "password" !in r
    ensures r["created_at"] == Null <==> u.createdAt == None
  {
    map[
      "id" := IntValue(u.id),
      "username" := StrValue(u.username),
      "email" := StrValue(u.email),
      "full_name" := StrValue(u.fullName),
      "bio" := StrValue(u.bio),
      "website" := StrValue(u.website),
      "is_private" := BoolValue(u.isPrivate),
      "is_verified" := BoolValue(u.isVerified),
      "created_at" := StrValue(u.createdAt)]
  }

  /** Reads back an optional int; `None` for a value of another kind. */
  function IntOf(v: Value): (r: Option<Option<int>>)
    ensures r.Some? <==> v.Null? || v.Int?
    ensures r.Some? ==> IntValue(r.value) == v
  {
    match v
    case Null => Some(None)
    case Int(i) => Some(Some(i))
    case _ => None
  }

  /** Reads back an optional string; `None` for a value of another kind. */
  function StrOf(v: Value): (r: Option<Option<string>>)
    ensures r.Some? <==> v.Null? || v.Str?
    ensures r.Some? ==> StrValue(r.value) == v
  {
    match v
    case Null => Some(None)
    case Str(s) => Some(Some(s))
    case _ => None
  }

  /** Reads back an optional bool; `None` for a value of another kind. */
  function BoolOf(v: Value): (r: Option<Option<bool>>)
    ensures r.Some? <==> v.Null? || v.Bool?
    ensures r.Some? ==> BoolValue(r.value) == v
  {
    match v
    case Null => Some(None)
    case Bool(b) => Some(Some(b))
    case _ => None
  }

  /** Reads a user back from its public view, given the password the view
      leaves out; `None` when a key is missing or extra, or a value has the
      wrong kind. */
  function Deserialize(m: map<string, Value>, password: Option<string>): Option<User>
  {
    if m.Keys != SerializedKeys then None
    else
      var id, username, email := IntOf(m["id"]), StrOf(m["username"]), StrOf(m["email"]);
      var fullName, bio, website := StrOf(m["full_name"]), StrOf(m["bio"]), StrOf(m["website"]);
      var isPrivate, isVerified := BoolOf(m["is_private"]), BoolOf(m["is_verified"]);
      var createdAt := StrOf(m["created_at"]);
      if id.None? || username.None? || email.None? || fullName.None? || bio.None? || website.None?
         || isPrivate.None? || isVerified.None? || createdAt.None?
      then None
      else Some(User(id.value, username.value, email.value, password, fullName.value, bio.value,
                     website.value, isPrivate.value, isVerified.value, createdAt.value))
  }

  /** Round trip: the public view together with the password gives back the
      user. */
  lemma DeserializeSerialize(u: User)
    ensures Deserialize(Serialize(u), u.password) == Some(u)
  {
    var m := Serialize(u);
    assert IntOf(m["id"]) == Some(u.id);
    assert StrOf(m["username"]) == Some(u.username);
    assert StrOf(m["email"]) == Some(u.email);
    assert StrOf(m["full_name"]) == Some(u.fullName);
    assert StrOf(m["bio"]) == Some(u.bio);
    assert StrOf(m["website"]) == Some(u.website);
    assert BoolOf(m["is_private"]) == Some(u.isPrivate);
    assert BoolOf(m["is_verified"]) == Some(u.isVerified);
    assert StrOf(m["created_at"]) == Some(u.createdAt);
  }

  /** The other direction: whatever is read back serializes to the same view
      and carries the supplied password. */
  lemma SerializeDeserialize(m: map<string, Value>, password: Option<string>)
    requires Deserialize(m, password).Some?
    ensures Serialize(Deserialize(m, password).value) == m
    ensures Deserialize(m, password).value.password == password
  {
    var u := Deserialize(m, password).value;
    var r := Serialize(u);
    assert r.Keys == m.Keys;
    assert r["id"] == m["id"];
    assert r["username"] == m["username"];
    assert r["email"] == m["email"];
    assert r["full_name"] == m["full_name"];
    assert r["bio"] == m["bio"];
    assert r["website"] == m["website"];
    assert r["is_private"] == m["is_private"];
    assert r["is_verified"] == m["is_verified"];
    assert r["created_at"] == m["created_at"];
  }

  /** The password has no influence on the public view. */
  lemma SerializeIgnoresPassword(u: User, password: Option<string>)
    ensures Serialize(u.(password := password)) == Serialize(u)
  {
  }

  /** Two users with the same public view differ at most in their password. */
  lemma SerializeInjective(u1: User, u2: User)
    requires Serialize(u1) == Serialize(u2)
    ensures u1.(password := None) == u2.(password := None)
  {
    DeserializeSerialize(u1);
    DeserializeSerialize(u2);
    assert u1.(password := None) == Deserialize(Serialize(u1), None).value;
    assert u2.(password := None) == Deserialize(Serialize(u2), None).value;
  }
}
