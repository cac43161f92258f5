/** The browser's `localStorage`, one object shared by everything that reads or writes it. */
module BrowserStorage {
  import opened Wrappers

  class LocalStorage {
    var items: map<string, string>

    constructor (initial: map<string, string>)
      ensures items == initial
    {
      items := initial;
    }

    function GetItem(key: string): (r: Option<string>)
      reads this
      ensures r.Some? <==> key in items
      ensures r.Some? ==> r.value == items[key]
    {
      if key in items then Some(items[key]) else None
    }

    method SetItem(key: string, value: string)
      modifies this
      ensures items == old(items)[key := value]
    {
      items := items[key := value];
    }

    method RemoveItem(key: string)
      modifies this
      ensures items == old(items) - {key}
    {
      items := items - {key};
    }
  }

  /**
   * `localStorage.getItem(key)` as a JavaScript truth test sees it: the text
   * when the key is present and the text is not empty.
   */
  function Stored(items: map<string, string>, key: string): (r: Option<string>)
    ensures r.Some? <==> key in items && items[key] != ""
    ensures r.Some? ==> r.value == items[key]
  {
    if key in items && items[key] != "" then Some(items[key]) else None
  }
}

/**
 * The text stored under `"tokens"` and `"user"`. `JSON.stringify` and
 * `JSON.parse` are replaced by the pair codec of `Codec`: the encoding of a
 * record is never empty and never the text `null`, and decoding inverts it.
 * The text `null` decodes to JSON's null, as `JSON.parse("null")` does.
 */
module SessionCodec {
  import opened Wrappers
  import opened Types
  import Codec

  /** What `JSON.parse` gives: a thrown error, JSON null, or a record. */
  datatype Parsed<T> = Malformed | JsonNull | Value(value: T)

  function EncodeTokens(t: AuthTokens): (s: string)
    ensures s != "" && s != "null"
  {
    var s := Codec.Serialize([("access", t.access), ("refresh", t.refresh)]);
    assert '=' !in "null";
    s
  }

  function DecodeTokens(text: string): Parsed<AuthTokens>
  {
    if text == "null" then JsonNull
    else
      match Codec.Parse(text)
      case None => Malformed
      case Some(ps) =>
        match (Codec.Lookup(ps, "access"), Codec.Lookup(ps, "refresh"))
        case (Some(a), Some(r)) => Value(AuthTokens(a, r))
        case _ => Malformed
  }

  lemma TokensRoundTrip(t: AuthTokens)
    ensures DecodeTokens(EncodeTokens(t)) == Value(t)
  {
    var ps := [("access", t.access), ("refresh", t.refresh)];
    Codec.SerializeRoundTrip(ps);
    assert "access" != "refresh" by { assert "access"[0] != "refresh"[0]; }
    assert Codec.Lookup(ps, "access") == Some(t.access);
    assert Codec.Lookup(ps, "refresh") == Some(t.refresh);
  }

  function UserFields(u: User): Codec.Params
  {
    [("id", Codec.IntToString(u.id)), ("username", u.username), ("email", u.email)]
    + (match u.phone case Some(p) => [("phone", p)] case None => [])
    + [("role", RoleName(u.role)), ("is_staff", if u.isStaff then "true" else "false")]
  }

  /** `phone` is left out when absent, as `JSON.stringify` drops an undefined field. */
  function EncodeUser(u: User): (s: string)
    ensures s != "" && s != "null"
  {
    var s := Codec.Serialize(UserFields(u));
    assert '=' !in "null";
    s
  }

  function ParseBool(s: string): Option<bool>
  {
    if s == "true" then Some(true) else if s == "false" then Some(false) else None
  }

  function DecodeUserFields(ps: Codec.Params): Option<User>
  {
    match (Codec.Lookup(ps, "id"), Codec.Lookup(ps, "username"), Codec.Lookup(ps, "email"),
           Codec.Lookup(ps, "role"), Codec.Lookup(ps, "is_staff"))
    case (Some(i), Some(name), Some(mail), Some(r), Some(staff)) =>
      (match (Codec.ParseInt(i), ParseRole(r), ParseBool(staff))
       case (Some(id), Some(role), Some(b)) => Some(User(id, name, mail, Codec.Lookup(ps, "phone"), role, b))
       case _ => None)
    case _ => None
  }

  function DecodeUser(text: string): Parsed<User>
  {
    if text == "null" then JsonNull
    else
      match Codec.Parse(text)
      case None => Malformed
      case Some(ps) =>
        match DecodeUserFields(ps)
        case Some(u) => Value(u)
        case None => Malformed
  }

  lemma UserFieldsRoundTrip(u: User)
    ensures DecodeUserFields(UserFields(u)) == Some(u)
  {
    Codec.IntRoundTrip(u.id);
    RoleRoundTrip(u.role);
    var staff := if u.isStaff then "true" else "false";
    var id := ("id", Codec.IntToString(u.id));
    var names := [("username", u.username), ("email", u.email)];
    var phone := match u.phone case Some(p) => [("phone", p)] case None => [];
    var tail := [("role", RoleName(u.role)), ("is_staff", staff)];
    var ps := UserFields(u);
    assert ps == [id] + (names + (phone + tail));
    assert ps == ([id] + names) + (phone + tail);
    assert ps == ([id] + names + phone) + tail;
    assert Codec.Lookup(ps, "id") == Some(Codec.IntToString(u.id));
    Codec.LookupSkip([id], names + (phone + tail), "username");
    Codec.LookupSkip([id], names + (phone + tail), "email");
    Codec.LookupSkip([id] + names, phone + tail, "phone");
    Codec.LookupSkip([id] + names + phone, tail, "role");
    Codec.LookupSkip([id] + names + phone, tail, "is_staff");
    match u.phone {
      case Some(p) =>
        assert phone + tail == [("phone", p)] + tail;
      case None =>
        assert phone + tail == tail;
        Codec.LookupSkip(tail, [], "phone");
        assert tail + [] == tail;
    }
  }

  lemma UserRoundTrip(u: User)
    ensures DecodeUser(EncodeUser(u)) == Value(u)
  {
    Codec.SerializeRoundTrip(UserFields(u));
    UserFieldsRoundTrip(u);
  }
}
