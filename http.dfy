/**
 * Requests as the API slices describe them (method, URL relative to the
 * backend base URL, JSON body), the bearer header, and readers that say what
 * a built URL names.
 */
module Http {
  import opened Wrappers
  import opened Types
  import Codec

  datatype Method = Get | Post | Patch | Delete

  /** The JSON body of a request, one shape per payload the endpoints send. */
  datatype Body =
    | NoBody
    | CredentialsBody(credentials: LoginCredentials)
    | RegisterBody(registration: RegisterData)
    | ProfileBody(profile: ProfileUpdateData)
    | PasswordBody(passwords: PasswordChangeData)
    | MovieBody(form: MovieFormData)
    | MoviePatchBody(patch: MoviePatch)
    | RentBody(movie: int)
    | InventoryBody(totalCopies: int, availableCopies: int)
    | RoleBody(role: string)

  datatype Request = Request(verb: Method, url: string, body: Body)

  type Headers = map<string, string>

  const Authorization := "Authorization"

  function Bearer(token: string): string { "Bearer " + token }

  /** A query endpoint given as a bare URL string is a GET without a body. */
  function GetRequest(url: string): Request { Request(Get, url, NoBody) }

  // ------------------------------------------------------------ URL readers

  /** The integer between `prefix` and the closing `/` of a resource URL such as `movies/7/`. */
  function ResourceId(url: string, prefix: string, suffix: string): Option<int>
  {
    if |prefix| + |suffix| <= |url| && url[..|prefix|] == prefix && url[|url| - |suffix|..] == suffix then
      Codec.ParseInt(url[|prefix|..|url| - |suffix|])
    else None
  }

  lemma ResourceIdOf(prefix: string, id: int, suffix: string)
    ensures ResourceId(prefix + Codec.IntToString(id) + suffix, prefix, suffix) == Some(id)
  {
    var n := Codec.IntToString(id);
    var url := prefix + n + suffix;
    assert url[..|prefix|] == prefix;
    assert url[|url| - |suffix|..] == suffix;
    assert url[|prefix|..|url| - |suffix|] == n;
    Codec.IntRoundTrip(id);
  }

  /** The parameters after `path?` in a URL such as `movies/?page=2`. */
  function QueryOf(url: string, path: string): Option<Codec.Params>
  {
    if |path| + 1 <= |url| && url[..|path|] == path && url[|path|] == '?' then
      Codec.Parse(url[|path| + 1..])
    else None
  }

  lemma QueryOfBuilt(path: string, ps: Codec.Params)
    ensures QueryOf(path + "?" + Codec.Serialize(ps), path) == Some(ps)
  {
    var url := path + "?" + Codec.Serialize(ps);
    assert url[..|path|] == path;
    assert url[|path| + 1..] == Codec.Serialize(ps);
    Codec.SerializeRoundTrip(ps);
  }

  /** The integer value of parameter `key` in the query of `url`, if it has one. */
  function IntParam(url: string, path: string, key: string): Option<int>
  {
    match QueryOf(url, path)
    case Some(ps) =>
      (match Codec.Lookup(ps, key)
       case Some(v) => Codec.ParseInt(v)
       case None => None)
    case None => None
  }

  /** Reading an integer parameter is parsing the text the query holds under that key. */
  lemma IntParamOfQuery(url: string, path: string, key: string, ps: Codec.Params, v: string)
    requires QueryOf(url, path) == Some(ps) && Codec.Lookup(ps, key) == Some(v)
    ensures IntParam(url, path, key) == Codec.ParseInt(v)
  {
  }

  /** A template URL `path?key=${n}` carries exactly `n` under `key`. */
  lemma IntParamOfTemplate(path: string, key: string, n: int)
    requires Codec.Escape(key) == key
    ensures IntParam(path + "?" + key + "=" + Codec.IntToString(n), path, key) == Some(n)
  {
    var v := Codec.IntToString(n);
    var ps := [(key, v)];
    var url := path + "?" + key + "=" + v;
    assert Codec.Escape(v) == v by {
      Codec.IntToStringUnreserved(n);
      Codec.EscapeUnreserved(v);
    }
    assert QueryOf(url, path) == Some(ps) by {
      Codec.SerializePlainPair(key, v);
      assert url == path + "?" + Codec.Serialize(ps);
      QueryOfBuilt(path, ps);
    }
    assert Codec.ParseInt(v) == Some(n) by {
      Codec.IntRoundTrip(n);
    }
    IntParamOfQuery(url, path, key, ps, v);
  }

  /** The same, for a URL written with the literal prefix `path?key=`. */
  lemma PrefixParamOf(prefix: string, path: string, key: string, n: int)
    requires prefix == path + "?" + key + "="
    requires Codec.Escape(key) == key
    ensures IntParam(prefix + Codec.IntToString(n), path, key) == Some(n)
  {
    IntParamOfTemplate(path, key, n);
    assert prefix + Codec.IntToString(n) == path + "?" + key + "=" + Codec.IntToString(n);
  }

  /** A `?page=${n}` URL carries exactly `n` as its page. */
  lemma PageParamOf(path: string, n: int)
    ensures IntParam(path + "?page=" + Codec.IntToString(n), path, "page") == Some(n)
  {
    assert path + "?page=" == path + "?" + "page" + "=" by {
      assert "?page=" == "?" + "page" + "=";
    }
    assert Codec.Escape("page") == "page" by {
      Codec.EscapeUnreserved("page");
    }
    PrefixParamOf(path + "?page=", path, "page", n);
  }
}
