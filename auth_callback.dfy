/** The auth callback route: it exchanges a `code` for a session and
    redirects, to the reset-password page for a recovery link and to
    `next` (or the home page) otherwise. */
module AuthCallback {
  import opened Wrappers
  import opened Js

  /** `searchParams.get(name)`: the first value given for the name. */
  function Param(query: seq<(string, string)>, name: string): (v: Option<string>)
    ensures v.Some? <==> exists i :: 0 <= i < |query| && query[i].0 == name
    ensures v.Some? ==> exists i :: (0 <= i < |query| && query[i] == (name, v.value) &&
      forall j :: 0 <= j < i ==> query[j].0 != name)
  {
    if query == [] then None
    else if query[0].0 == name then Some(query[0].1)
    else
      var rest := Param(query[1..], name);
      assert rest.Some? ==> exists i :: (1 <= i < |query| && query[i] == (name, rest.value) &&
        forall j :: 0 <= j < i ==> query[j].0 != name) by {
        if rest.Some? {
          var i :| 0 <= i < |query[1..]| && query[1..][i] == (name, rest.value) &&
            forall j :: 0 <= j < i ==> query[1..][j].0 != name;
          assert query[i + 1] == (name, rest.value);
          assert forall j :: 0 <= j < i + 1 ==> query[j].0 != name by {
            forall j | 0 <= j < i + 1
              ensures query[j].0 != name
            {
              if j > 0 { assert query[j] == query[1..][j - 1]; }
            }
          }
        }
      }
      assert rest.None? ==> forall i :: 0 <= i < |query| ==> query[i].0 != name by {
        if rest.None? {
          forall i | 0 <= i < |query|
            ensures query[i].0 != name
          {
            if i > 0 { assert query[i] == query[1..][i - 1]; }
          }
        }
      }
      rest
  }

  // ---------------------------------------------------------------------
  // Where `new URL(ref, origin)` points, as far as leaving the origin goes

  /** The targets a reference resolves to against the request's origin: a
      path on that origin, a network-path reference (`//host...`) that keeps
      only the scheme, or an absolute URL with its own scheme. */
  datatype Target = OnOrigin(path: string) | NetworkPath(ref: string) | Absolute(url: string)

  /** The parser first drops leading and trailing C0 controls and spaces. */
  predicate IsControlOrSpace(c: char) {
    c as int <= 0x20
  }

  function TrimControlStart(s: string): (r: string)
    ensures r != [] ==> !IsControlOrSpace(r[0])
  {
    if s != [] && IsControlOrSpace(s[0]) then TrimControlStart(s[1..]) else s
  }

  function TrimControlEnd(s: string): (r: string)
    ensures |r| <= |s| && r == s[..|r|]
    ensures forall i :: |r| <= i < |s| ==> IsControlOrSpace(s[i])
  {
    if s != [] && IsControlOrSpace(s[|s| - 1]) then TrimControlEnd(s[..|s| - 1]) else s
  }

  /** ... then removes every tab and newline. */
  function RemoveTabNewline(s: string): (r: string)
    ensures forall i :: 0 <= i < |r| ==> r[i] != '\t' && r[i] != '\n' && r[i] != '\r'
  {
    if s == [] then []
    else (if s[0] == '\t' || s[0] == '\n' || s[0] == '\r' then [] else [s[0]]) + RemoveTabNewline(s[1..])
  }

  function Clean(s: string): string {
    RemoveTabNewline(TrimControlEnd(TrimControlStart(s)))
  }

  predicate IsAsciiAlpha(c: char) {
    'a' <= c <= 'z' || 'A' <= c <= 'Z'
  }

  predicate IsSchemeChar(c: char) {
    IsAsciiAlpha(c) || IsDigit(c) || c == '+' || c == '-' || c == '.'
  }

  predicate SchemeRest(s: string) {
    s != [] && (s[0] == ':' || (IsSchemeChar(s[0]) && SchemeRest(s[1..])))
  }

  /** A letter, then letters, digits, `+`, `-` or `.`, then a colon. */
  predicate HasScheme(s: string) {
    s != [] && IsAsciiAlpha(s[0]) && SchemeRest(s[1..])
  }

  /** For the `http`/`https` origins a backslash counts as a slash. */
  predicate IsSlash(c: char) {
    c == '/' || c == '\\'
  }

  /** Where `new URL(reference, origin)` points: a URL with a scheme of its
      own, a network path naming a host, or otherwise a path on the origin,
      which then has neither a scheme nor a host part. */
  function Resolve(reference: string): (t: Target)
    ensures t.Absolute? ==> HasScheme(t.url)
    ensures t.NetworkPath? ==> |t.ref| >= 2 && IsSlash(t.ref[0]) && IsSlash(t.ref[1])
    ensures t.OnOrigin? ==> !HasScheme(t.path) && !(|t.path| >= 2 && IsSlash(t.path[0]) && IsSlash(t.path[1]))
  {
    var r := Clean(reference);
    if HasScheme(r) then Absolute(r)
    else if |r| >= 2 && IsSlash(r[0]) && IsSlash(r[1]) then NetworkPath(r)
    else OnOrigin(r)
  }

  /** A reference that starts with two slashes names another host: it
      never resolves to a path on the origin. */
  lemma NetworkPathLeaves(reference: string)
    requires |reference| >= 2 && reference[0] == '/' && reference[1] == '/'
    ensures Resolve(reference).NetworkPath?
  {
    var a := TrimControlStart(reference);
    assert a == reference;
    var b := TrimControlEnd(a);
    assert |b| >= 2 && b[0] == '/' && b[1] == '/';
    var c := RemoveTabNewline(b);
    assert RemoveTabNewline(b) == [b[0]] + RemoveTabNewline(b[1..]);
    assert b[1..][0] == '/';
    assert RemoveTabNewline(b[1..]) == [b[1..][0]] + RemoveTabNewline(b[1..][1..]);
    assert c[0] == '/' && c[1] == '/';
    assert !HasScheme(c);
  }

  /** Text without controls, spaces, tabs or newlines is left as it is by
      the cleaning. */
  lemma {:induction false} RemoveTabNewlineKeeps(s: string)
    requires forall i :: 0 <= i < |s| ==> !IsControlOrSpace(s[i])
    ensures RemoveTabNewline(s) == s
  {
    if s != [] {
      RemoveTabNewlineKeeps(s[1..]);
      assert [s[0]] + s[1..] == s;
    }
  }

  /** An ordinary path such as `/dashboard` stays on the origin, unchanged. */
  lemma PlainPathStays(p: string)
    requires |p| >= 1 && p[0] == '/' && (|p| == 1 || !IsSlash(p[1]))
    requires forall i :: 0 <= i < |p| ==> !IsControlOrSpace(p[i])
    ensures Resolve(p) == OnOrigin(p)
  {
    assert TrimControlStart(p) == p;
    assert TrimControlEnd(p) == p;
    RemoveTabNewlineKeeps(p);
  }

  // ---------------------------------------------------------------------
  // The route

  /** The route's answer: the code exchanged for a session, if any, and
      the one redirect it returns. */
  datatype Response = Response(exchanged: Option<string>, location: Target)

  /** `GET`, as written. */
  function Get(query: seq<(string, string)>): (r: Response)
    ensures r.exchanged.Some? <==> Truthy(Param(query, "code"))
    ensures r.exchanged.Some? ==> r.exchanged == Param(query, "code")
    ensures Param(query, "type") == Some("recovery") ==> r.location == OnOrigin("/auth/reset-password")
    ensures Param(query, "type") != Some("recovery") && Truthy(Param(query, "next")) ==>
      r.location == Resolve(Param(query, "next").value)
    ensures Param(query, "type") != Some("recovery") && !Truthy(Param(query, "next")) ==>
      r.location == OnOrigin("/")
  {
    var code := Param(query, "code");
    var next := Param(query, "next");
    var exchanged := if Truthy(code) then code else None;
    if Param(query, "type") == Some("recovery") then Response(exchanged, OnOrigin("/auth/reset-password"))
    else if Truthy(next) then Response(exchanged, Resolve(next.value))
    else Response(exchanged, OnOrigin("/"))
  }

  /** As written, `next` may send the browser to another site once the
      sign-in completes: `?next=//evil.example` leaves the origin. */
  lemma OpenRedirect()
    ensures !Get([("next", "//evil.example")]).location.OnOrigin?
  {
    var q := [("next", "//evil.example")];
    assert Param(q, "type") == None;
    assert Param(q, "next") == Some("//evil.example");
    NetworkPathLeaves("//evil.example");
  }

  /** Where `next` leads when it resolves to a path on the origin, the
      home page otherwise. */
  function SafeNext(next: Option<string>): (t: Target)
    ensures t.OnOrigin?
    ensures Truthy(next) && Resolve(next.value).OnOrigin? ==> t == Resolve(next.value)
    ensures !(Truthy(next) && Resolve(next.value).OnOrigin?) ==> t == OnOrigin("/")
  {
    if Truthy(next) && Resolve(next.value).OnOrigin? then Resolve(next.value) else OnOrigin("/")
  }

  /** `GET` with `next` restricted to the origin: it redirects where the
      route as written does whenever that stays on the origin, and to the
      home page instead of leaving it. */
  function SafeGet(query: seq<(string, string)>): (r: Response)
    ensures r.location.OnOrigin?
    ensures r.exchanged == Get(query).exchanged
    ensures Get(query).location.OnOrigin? ==> r.location == Get(query).location
    ensures !Get(query).location.OnOrigin? ==> r.location == OnOrigin("/")
  {
    var code := Param(query, "code");
    var exchanged := if Truthy(code) then code else None;
    if Param(query, "type") == Some("recovery") then Response(exchanged, OnOrigin("/auth/reset-password"))
    else Response(exchanged, SafeNext(Param(query, "next")))
  }
}
