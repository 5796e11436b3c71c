/**
 * The pure rules of the REST connector: which credential goes into the
 * `Authorization` header, how `_get` builds its URL and classifies the
 * response, and `cleanJson`'s namespace-prefix removal.
 *
 * The token is an HTTP Basic credential (section 2 of RFC 7617), the
 * base64 encoding (section 4 of RFC 4648) of `user:password`; the encoding
 * itself is a parameter here.
 */
module RestProtocol {
  import opened Wrappers
  import opened Text

  // ---------------------------------------------------------------------
  // Credentials

  /** JavaScript truthiness of an optional string field: present and not empty. */
  predicate Given(s: Option<string>)
  {
    s.Some? && s.value != ""
  }

  /** String concatenation shows a missing field as `undefined`. */
  function Shown(s: Option<string>): string
  {
    if s.Some? then s.value else "undefined"
  }

  /**
   * `authenticate`'s choice of token: the encoded `username:password` when
   * either is given, else the request's own token, else the configured one.
   */
  function ChooseToken(username: Option<string>, password: Option<string>, token: Option<string>,
                       configured: string, encode: string -> string): (r: string)
    ensures Given(username) || Given(password) ==> r == encode(Shown(username) + ":" + Shown(password))
    ensures !Given(username) && !Given(password) && Given(token) ==> r == token.value
    ensures !Given(username) && !Given(password) && !Given(token) ==> r == configured
  {
    if Given(username) || Given(password) then encode(Shown(username) + ":" + Shown(password))
    else if Given(token) then token.value
    else configured
  }

  /** The header every request carries, built from the saved token. */
  function AuthorizationHeader(savedToken: string): string
  {
    "Basic " + savedToken
  }

  // ---------------------------------------------------------------------
  // Request URL

  /** The response format parameter `_get` adds to every URL. */
  const MessageType := "alt=application/json"

  /**
   * Legacy URL parsing cuts the fragment off at the first `#` and then
   * takes the search part from the first `?`: a URL has a search part
   * exactly when a `?` comes before any `#`.
   */
  predicate HasSearch(u: string)
  {
    var hash := IndexOf(u, "#");
    Contains(if hash < 0 then u else u[..hash], "?")
  }

  /** `_get`'s URL: the format parameter joins an existing search with `&`, else starts one with `?`. */
  function RequestUrl(base: string, path: string): (r: string)
  {
    var u := base + path;
    u + (if HasSearch(u) then "&" else "?") + MessageType
  }

  /**
   * The request URL extends the plain one by one separator and the format
   * parameter, and the separator is `&` exactly when a search part was
   * already there.
   */
  lemma RequestUrlExtends(base: string, path: string)
    ensures var u, r := base + path, RequestUrl(base, path);
      |r| == |u| + 1 + |MessageType| && r[..|u|] == u && r[|u| + 1..] == MessageType
      && (r[|u|] == '&' <==> HasSearch(u)) && (r[|u|] == '?' <==> !HasSearch(u))
  {
  }

  /** A string without the character `c` does not contain it as a one-character pattern. */
  lemma LacksChar(s: string, c: char)
    requires forall i :: 0 <= i < |s| ==> s[i] != c
    ensures !Contains(s, [c])
  {
    forall i | 0 <= i <= |s| ensures !OccursAt(s, [c], i) {
      if i + 1 <= |s| {
        assert s[i..i + 1][0] == s[i];
      }
    }
  }

  lemma NoHashKept(u: string, tail: string)
    requires !Contains(u, "#") && !Contains(tail, "#")
    ensures !Contains(u + tail, "#")
  {
    var t := u + tail;
    forall i | 0 <= i <= |t| ensures !OccursAt(t, "#", i) {
      if OccursAt(t, "#", i) {
        if i < |u| {
          assert OccursAt(u, "#", i);
        } else {
          assert OccursAt(tail, "#", i - |u|);
        }
      }
    }
  }

  /** Without a fragment, the request URL always carries a search part. */
  lemma {:induction false} RequestUrlHasSearch(base: string, path: string)
    requires !Contains(base + path, "#")
    ensures HasSearch(RequestUrl(base, path))
  {
    var u := base + path;
    var sep := if HasSearch(u) then "&" else "?";
    var r := RequestUrl(base, path);
    assert r == u + (sep + MessageType);
    LacksChar(sep + MessageType, '#');
    NoHashKept(u, sep + MessageType);
    assert IndexOf(r, "#") < 0;
    if HasSearch(u) {
      var q := IndexOf(u, "?");
      assert OccursAt(u, "?", q);
      assert r[q..q + 1] == u[q..q + 1];
      assert OccursAt(r, "?", q);
    } else {
      assert OccursAt(r, "?", |u|);
    }
  }

  /**
   * A fragment without a search part before it swallows the parameter: the
   * format parameter lands in the fragment and the request has no search.
   */
  lemma {:induction false} FragmentSwallowsParameter(base: string, path: string)
    requires Contains(base + path, "#") && !HasSearch(base + path)
    ensures !HasSearch(RequestUrl(base, path))
  {
    var u := base + path;
    var r := RequestUrl(base, path);
    var h := IndexOf(u, "#");
    assert r == u + ("?" + MessageType);
    assert OccursAt(r, "#", h) by {
      assert r[h..h + 1] == u[h..h + 1];
    }
    assert forall j :: 0 <= j < h ==> !OccursAt(r, "#", j) by {
      forall j | 0 <= j < h ensures !OccursAt(r, "#", j) {
        assert !OccursAt(u, "#", j);
        assert r[j..j + 1] == u[j..j + 1];
      }
    }
    var hr := IndexOf(r, "#");
    assert hr == h;
    assert r[..h] == u[..h];
  }

  // ---------------------------------------------------------------------
  // Responses

  /**
   * What the transport hands back: no response at all, or a status with
   * its message and the body as JSON text (`None` when it is not JSON).
   */
  datatype Reply =
    | TransportFailed
    | Response(status: int, statusMessage: string, body: Option<string>)

  datatype GetError = Failed(message: string) | BodyNotJson | NoResponse

  /**
   * `_get`'s classification: 200 yields the parsed body, 401 fails with the
   * fixed credentials message, any other status with the status message.
   */
  function ClassifyGet(reply: Reply): (r: Result<string, GetError>)
    ensures r.Ok? <==> reply.Response? && reply.status == 200 && reply.body.Some?
    ensures r.Ok? ==> r.value == reply.body.value
    ensures reply.Response? && reply.status == 401 ==> r == Err(Failed("Invalid username or password"))
    ensures reply.Response? && reply.status != 200 && reply.status != 401 ==> r == Err(Failed(reply.statusMessage))
    ensures reply.TransportFailed? ==> r == Err(NoResponse)
  {
    match reply
    case TransportFailed => Err(NoResponse)
    case Response(status, message, body) =>
      if status == 200 then (if body.Some? then Ok(body.value) else Err(BodyNotJson))
      else if status == 401 then Err(Failed("Invalid username or password"))
      else Err(Failed(message))
  }

  // ---------------------------------------------------------------------
  // cleanJson

  /**
   * `cleanJson` on the serialised response: the first `ns2:` and then the
   * first `:ns2` are deleted, every later occurrence stays.
   */
  function CleanJson(text: string): string
  {
    ReplaceFirst(ReplaceFirst(text, "ns2:", ""), ":ns2", "")
  }

  /** Text without either prefix form passes through unchanged. */
  lemma CleanJsonUnchanged(text: string)
    requires !Contains(text, "ns2:") && !Contains(text, ":ns2")
    ensures CleanJson(text) == text
  {
    ReplaceFirstSplits(text, "ns2:", "");
    ReplaceFirstSplits(text, ":ns2", "");
  }

  /** At most eight characters go, and only when a prefix form is present. */
  lemma CleanJsonShrinks(text: string)
    ensures |text| - 8 <= |CleanJson(text)| <= |text|
    ensures |CleanJson(text)| == |text| <==> CleanJson(text) == text
  {
    var once := ReplaceFirst(text, "ns2:", "");
    ReplaceFirstSplits(text, "ns2:", "");
    ReplaceFirstSplits(once, ":ns2", "");
  }

  /**
   * Only the first `ns2:` goes: in `ns2:a,ns2:b` the second prefixed name,
   * which has no `:` before it, is kept.
   */
  lemma CleanJsonKeepsSecondPrefix()
    ensures CleanJson("ns2:a,ns2:b") == "a,ns2:b"
  {
    var t := "ns2:a,ns2:b";
    assert OccursAt(t, "ns2:", 0);
    var once := "a,ns2:b";
    assert ReplaceFirst(t, "ns2:", "") == once;
    forall i | 0 <= i <= |once| ensures !OccursAt(once, ":ns2", i) {
      if i + 4 <= |once| {
        assert once[i..i + 4][0] == once[i] && once[i..i + 4][1] == once[i + 1];
      }
    }
    ReplaceFirstSplits(once, ":ns2", "");
  }

  /**
   * A second `ns2:` that follows a colon is the first `:ns2` as well, so
   * both go: `ns2:a:ns2:b` becomes `a:b`.
   */
  lemma CleanJsonRemovesBothForms()
    ensures CleanJson("ns2:a:ns2:b") == "a:b"
  {
    LeadingPrefixRemoved();
    ColonFormRemoved();
  }

  lemma LeadingPrefixRemoved()
    ensures ReplaceFirst("ns2:a:ns2:b", "ns2:", "") == "a:ns2:b"
  {
    var t := "ns2:a:ns2:b";
    assert OccursAt(t, "ns2:", 0);
    assert t[4..] == "a:ns2:b";
  }

  lemma ColonFormRemoved()
    ensures ReplaceFirst("a:ns2:b", ":ns2", "") == "a:b"
  {
    var once := "a:ns2:b";
    assert OccursAt(once, ":ns2", 1) by {
      assert once[1..5] == ":ns2";
    }
    assert !OccursAt(once, ":ns2", 0) by {
      assert once[0..4][0] == 'a';
    }
    assert once[..1] + once[5..] == "a:b";
  }
}
