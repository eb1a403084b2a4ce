/**
 * The application shell (src/App.js): recognising an OAuth redirect,
 * the callback page's once-only hand-over of the token, code or error,
 * the shell's success and error handlers, and the Gmail sync, which runs
 * the save and update calls the sync returns against the job store.
 *
 * The browser location is a value. Query strings are split on '&' and
 * '=' as URLSearchParams does, without its percent-decoding. The sync
 * service itself is a parameter: its result, or the message of its
 * failure.
 */
module App {
  import opened Wrappers
  import opened Text
  import opened Jobs
  import opened Tools
  import Chat

  // ------------------------------------------------------------ locations

  datatype Location = Location(pathname: string, hash: string, search: string)

  datatype Param = Param(name: string, value: string)

  /**
   * s split at every occurrence of sep: the pieces hold no separator and,
   * joined with it, give s back; there is always at least one piece.
   */
  function Split(s: string, sep: char): (r: seq<string>)
    ensures |r| >= 1 && StartsWith(s, r[0])
    ensures forall k :: 0 <= k < |r| ==> Contains(s, r[k])
    ensures forall k :: 0 <= k < |r| ==> sep !in r[k]
    ensures Join(r, [sep]) == s
    decreases |s|
  {
    if s == [] then [""]
    else
      var rest := Split(s[1..], sep);
      if s[0] == sep then
        JoinAfterEmpty(rest, [sep]);
        assert [s[0]] + s[1..] == s;
        [""] + rest
      else
        var head := [s[0]] + rest[0];
        assert head[1..] == rest[0];
        assert s[..|head|] == [s[0]] + s[1..][..|rest[0]|];
        JoinExtendFirst(s[0], rest, [sep]);
        assert [s[0]] + s[1..] == s;
        [head] + rest[1..]
  }

  /** An empty first piece contributes only the separator. */
  lemma JoinAfterEmpty(rest: seq<string>, sep: string)
    requires |rest| >= 1
    ensures Join([""] + rest, sep) == sep + Join(rest, sep)
  {
    assert ([""] + rest)[1..] == rest;
  }

  /** A character put before the first piece is put before the joined text. */
  lemma JoinExtendFirst(c: char, rest: seq<string>, sep: string)
    requires |rest| >= 1
    ensures Join([[c] + rest[0]] + rest[1..], sep) == [c] + Join(rest, sep)
  {
    var r := [[c] + rest[0]] + rest[1..];
    assert r[1..] == rest[1..];
    if |rest| > 1 {
      assert ([c] + rest[0]) + sep + Join(rest[1..], sep) == [c] + (rest[0] + sep + Join(rest[1..], sep));
    }
  }

  /**
   * One `name=value` piece, split at its first '='; a piece without '=' is
   * a name with the empty value.
   */
  function ParseParam(piece: string): (p: Param)
    ensures StartsWith(piece, p.name) && '=' !in p.name
    ensures '=' !in piece ==> p == Param(piece, "")
    ensures '=' in piece ==> piece == p.name + "=" + p.value
    decreases |piece|
  {
    if piece == [] then Param("", "")
    else if piece[0] == '=' then
      assert piece == "" + "=" + piece[1..];
      Param("", piece[1..])
    else
      var rest := ParseParam(piece[1..]);
      var name := [piece[0]] + rest.name;
      ParseParamCons(piece, rest);
      Param(name, rest.value)
  }

  /** A piece that starts with a name character parses as that character before the rest's parse. */
  lemma ParseParamCons(piece: string, rest: Param)
    requires piece != [] && piece[0] != '='
    requires StartsWith(piece[1..], rest.name) && '=' !in rest.name
    requires '=' !in piece[1..] ==> rest == Param(piece[1..], "")
    requires '=' in piece[1..] ==> piece[1..] == rest.name + "=" + rest.value
    ensures var name := [piece[0]] + rest.name;
      && StartsWith(piece, name) && '=' !in name
      && ('=' !in piece ==> Param(name, rest.value) == Param(piece, ""))
      && ('=' in piece ==> piece == name + "=" + rest.value)
  {
    var name := [piece[0]] + rest.name;
    assert piece == [piece[0]] + piece[1..];
    assert piece[..|name|] == [piece[0]] + piece[1..][..|rest.name|];
    if '=' in piece {
      var i :| 0 <= i < |piece| && piece[i] == '=';
      assert piece[1..][i - 1] == '=';
      assert [piece[0]] + (rest.name + "=" + rest.value) == name + "=" + rest.value;
    } else {
      assert forall i :: 0 <= i < |piece[1..]| ==> piece[1..][i] == piece[i + 1];
    }
  }

  /** new URLSearchParams(s): a leading '?' is dropped and empty pieces are skipped. */
  function Query(s: string): seq<Param>
  {
    var body := if s != [] && s[0] == '?' then s[1..] else s;
    ParamsOf(Split(body, '&'))
  }

  function ParamsOf(pieces: seq<string>): seq<Param>
  {
    if pieces == [] then []
    else (if pieces[0] == "" then [] else [ParseParam(pieces[0])]) + ParamsOf(pieces[1..])
  }

  /** URLSearchParams.get: the value of the first parameter with the name, or null. */
  function Get(params: seq<Param>, name: string): (r: Option<string>)
    ensures r.None? <==> forall k :: 0 <= k < |params| ==> params[k].name != name
    ensures r.Some? ==>
      exists k :: (0 <= k < |params| && params[k].name == name && params[k].value == r.value && FirstNamed(params, name, k))
  {
    if params == [] then None
    else if params[0].name == name then Some(params[0].value)
    else
      var r := Get(params[1..], name);
      assert r.Some? ==>
        exists k :: (0 <= k < |params| && params[k].name == name && params[k].value == r.value && FirstNamed(params, name, k)) by {
        if r.Some? {
          var k :| 0 <= k < |params[1..]| && params[1..][k].name == name && params[1..][k].value == r.value
            && FirstNamed(params[1..], name, k);
          assert params[k + 1] == params[1..][k];
          assert FirstNamed(params, name, k + 1);
        }
      }
      r
  }

  /** No parameter before position k has the name. */
  predicate FirstNamed(params: seq<Param>, name: string, k: nat)
    requires k <= |params|
  {
    forall j :: 0 <= j < k ==> params[j].name != name
  }

  /** A JavaScript truthy string: present and not empty. */
  predicate Truthy(v: Option<string>)
  {
    v.Some? && v.value != ""
  }

  /** location.hash.substring(1). */
  function HashBody(hash: string): string
  {
    if hash == [] then [] else hash[1..]
  }

  /** The redirect check of the shell's first effect. */
  predicate IsOAuthCallback(loc: Location)
  {
    || Contains(loc.pathname, "/oauth/callback")
    || Contains(loc.hash, "access_token")
    || Truthy(Get(Query(loc.search), "code"))
    || Truthy(Get(Query(loc.search), "error"))
  }

  // ------------------------------------------------------- the callback page

  /** What the callback page found, in the order it looks. */
  datatype Found = TokenFound(token: string) | CodeFound(code: string) | ErrorFound(error: string) | NothingFound

  function HashParams(loc: Location): seq<Param>
  {
    Query(HashBody(loc.hash))
  }

  /** `searchParams.get('error') || hashParams.get('error')`. */
  function ErrorParam(loc: Location): Option<string>
  {
    var fromQuery := Get(Query(loc.search), "error");
    if Truthy(fromQuery) then fromQuery else Get(HashParams(loc), "error")
  }

  function Lookup(loc: Location): (f: Found)
    ensures f.TokenFound? ==> f.token != ""
    ensures f.CodeFound? ==> f.code != ""
    ensures f.ErrorFound? ==> f.error != ""
  {
    var token := Get(HashParams(loc), "access_token");
    var code := Get(Query(loc.search), "code");
    var error := ErrorParam(loc);
    if Truthy(token) then TokenFound(token.value)
    else if Truthy(code) then CodeFound(code.value)
    else if Truthy(error) then ErrorFound(error.value)
    else NothingFound
  }

  /** The payload handed to the shell's onSuccess. */
  datatype AuthPayload = AccessTokenPayload(accessToken: string) | CodePayload(code: string)

  /** What the callback page does outside itself. */
  datatype Effect =
    | Success(payload: AuthPayload)          // onSuccess(...)
    | Failure(error: string)                 // onError(error)
    | Post(messageType: string, value: string) // window.opener.postMessage(...)
    | CloseWindow                            // window.close()
    | ResetUrl(pathname: string)             // history.replaceState to the bare path

  const PostSuccess := "gmail-oauth-success"
  const PostError := "gmail-oauth-error"

  predicate IsDelivery(e: Effect)
  {
    e.Success? || e.Failure? || e.Post?
  }

  /** The effects of one handleAuth call that finds something. */
  function Deliver(f: Found, hasOpener: bool, pathname: string): seq<Effect>
  {
    match f
    case TokenFound(t) => [Success(AccessTokenPayload(t)), ResetUrl(pathname)]
    case CodeFound(c) =>
      if hasOpener then [Post(PostSuccess, c), CloseWindow] else [Success(CodePayload(c)), ResetUrl(pathname)]
    case ErrorFound(e) =>
      if hasOpener then [Post(PostError, e), CloseWindow] else [Failure(e), ResetUrl(pathname)]
    case NothingFound => []
  }

  /** The page's state: the hasSent ref and the effects so far. */
  datatype AuthState = AuthState(hasSent: bool, effects: seq<Effect>)

  /** handleAuth on a state. */
  function AuthStep(s: AuthState, loc: Location, hasOpener: bool): AuthState
  {
    if s.hasSent then s
    else
      var f := Lookup(loc);
      AuthState(f != NothingFound, s.effects + Deliver(f, hasOpener, loc.pathname))
  }

  /** The OAuthCallback component: handleAuth runs on mount and again when the handlers change. */
  class OAuthCallback {
    var hasSent: bool
    var effects: seq<Effect>

    function State(): AuthState
      reads this
    {
      AuthState(hasSent, effects)
    }

    constructor ()
      ensures !hasSent && effects == []
    {
      hasSent := false;
      effects := [];
    }

    method HandleAuth(loc: Location, hasOpener: bool)
      modifies this
      ensures State() == AuthStep(old(State()), loc, hasOpener)
    {
      if hasSent {
        return;
      }
      var found := Lookup(loc);
      match found {
        case TokenFound(t) =>
          hasSent := true;
          effects := effects + [Success(AccessTokenPayload(t)), ResetUrl(loc.pathname)];
        case CodeFound(c) =>
          hasSent := true;
          if hasOpener {
            effects := effects + [Post(PostSuccess, c), CloseWindow];
          } else {
            effects := effects + [Success(CodePayload(c)), ResetUrl(loc.pathname)];
          }
        case ErrorFound(e) =>
          hasSent := true;
          if hasOpener {
            effects := effects + [Post(PostError, e), CloseWindow];
          } else {
            effects := effects + [Failure(e), ResetUrl(loc.pathname)];
          }
        case NothingFound =>
      }
    }
  }

  /** Runs of handleAuth, one per (location, opener) pair. */
  function AuthRuns(s: AuthState, calls: seq<(Location, bool)>): AuthState
    decreases |calls|
  {
    if calls == [] then s else AuthRuns(AuthStep(s, calls[0].0, calls[0].1), calls[1..])
  }

  function Deliveries(effects: seq<Effect>): nat
  {
    if effects == [] then 0 else (if IsDelivery(effects[0]) then 1 else 0) + Deliveries(effects[1..])
  }

  lemma {:induction false} DeliveriesAppend(a: seq<Effect>, b: seq<Effect>)
    ensures Deliveries(a + b) == Deliveries(a) + Deliveries(b)
    decreases |a|
  {
    if a != [] {
      assert (a + b)[0] == a[0] && (a + b)[1..] == a[1..] + b;
      DeliveriesAppend(a[1..], b);
    } else {
      assert a + b == b;
    }
  }

  /** One call delivers exactly one message when it finds something and none otherwise. */
  lemma DeliverCount(f: Found, hasOpener: bool, pathname: string)
    ensures Deliveries(Deliver(f, hasOpener, pathname)) == if f == NothingFound then 0 else 1
  {
    var d := Deliver(f, hasOpener, pathname);
    if d != [] {
      assert |d| == 2 && IsDelivery(d[0]) && !IsDelivery(d[1]);
      assert d[1..][1..] == [];
      assert Deliveries(d[1..]) == 0;
    }
  }

  /**
   * However often handleAuth runs on one page, the token, code or error is
   * handed over at most once, and exactly once from the moment hasSent is
   * set.
   */
  lemma {:induction false} HandedOverAtMostOnce(calls: seq<(Location, bool)>)
    ensures var s := AuthRuns(AuthState(false, []), calls);
      Deliveries(s.effects) == if s.hasSent then 1 else 0
  {
    AuthRunsCount(AuthState(false, []), calls);
  }

  lemma {:induction false} AuthRunsCount(s: AuthState, calls: seq<(Location, bool)>)
    requires Deliveries(s.effects) == if s.hasSent then 1 else 0
    ensures var t := AuthRuns(s, calls);
      Deliveries(t.effects) == if t.hasSent then 1 else 0
    decreases |calls|
  {
    if calls != [] {
      var next := AuthStep(s, calls[0].0, calls[0].1);
      if !s.hasSent {
        var f := Lookup(calls[0].0);
        DeliveriesAppend(s.effects, Deliver(f, calls[0].1, calls[0].0.pathname));
        DeliverCount(f, calls[0].1, calls[0].0.pathname);
      }
      AuthRunsCount(next, calls[1..]);
    }
  }

  /** Once hasSent is set, later runs change nothing. */
  lemma {:induction false} SentIsFinal(s: AuthState, calls: seq<(Location, bool)>)
    requires s.hasSent
    ensures AuthRuns(s, calls) == s
    decreases |calls|
  {
    if calls != [] {
      SentIsFinal(s, calls[1..]);
    }
  }

  /**
   * An access token in the hash beats a query code, which beats an error;
   * the error is read from the query first and from the hash after; with
   * none of them nothing happens and hasSent stays clear.
   */
  lemma LookupPriority(loc: Location)
    ensures Truthy(Get(HashParams(loc), "access_token")) ==>
      Lookup(loc) == TokenFound(Get(HashParams(loc), "access_token").value)
    ensures !Truthy(Get(HashParams(loc), "access_token")) && Truthy(Get(Query(loc.search), "code")) ==>
      Lookup(loc) == CodeFound(Get(Query(loc.search), "code").value)
    ensures Lookup(loc).ErrorFound? ==>
      && !Truthy(Get(HashParams(loc), "access_token")) && !Truthy(Get(Query(loc.search), "code"))
      && (Truthy(Get(Query(loc.search), "error")) ==> Lookup(loc).error == Get(Query(loc.search), "error").value)
      && (!Truthy(Get(Query(loc.search), "error")) ==> Lookup(loc).error == Get(HashParams(loc), "error").value)
    ensures Lookup(loc) == NothingFound ==>
      && AuthStep(AuthState(false, []), loc, true) == AuthState(false, [])
      && AuthStep(AuthState(false, []), loc, false) == AuthState(false, [])
  {
  }

  /**
   * With an opener window a code or error is posted to it and the popup
   * closes; without one the shell's own handler gets it. A token is always
   * handled locally.
   */
  lemma OpenerRouting(f: Found, pathname: string)
    ensures f.CodeFound? ==>
      && Deliver(f, true, pathname)[0] == Post(PostSuccess, f.code)
      && Deliver(f, false, pathname)[0] == Success(CodePayload(f.code))
    ensures f.ErrorFound? ==>
      && Deliver(f, true, pathname)[0] == Post(PostError, f.error)
      && Deliver(f, false, pathname)[0] == Failure(f.error)
    ensures f.TokenFound? ==> Deliver(f, true, pathname) == Deliver(f, false, pathname)
    ensures forall e :: e in Deliver(f, false, pathname) ==> !e.Post? && e != CloseWindow
  {
  }

  // ------------------------------------------ query strings and the redirect check

  lemma {:induction false} ContainsTransitive(a: string, b: string, c: string)
    requires Contains(a, b) && Contains(b, c)
    ensures Contains(a, c)
  {
    var i := ContainsWitness(a, b);
    var j := ContainsWitness(b, c);
    forall t | 0 <= t < |c|
      ensures a[i + j + t] == c[t]
    {
      assert c[t] == b[j + t] && b[j + t] == a[i + j + t];
    }
    assert a[i + j..i + j + |c|] == c;
    ContainsAt(a, c, i + j);
  }

  lemma StartsWithContains(s: string, p: string)
    requires StartsWith(s, p)
    ensures Contains(s, p)
  {
  }

  /** Every parameter name of a query occurs in its text. */
  lemma {:induction false} ParamNamesOccur(pieces: seq<string>, s: string)
    requires forall k :: 0 <= k < |pieces| ==> Contains(s, pieces[k])
    ensures forall p :: p in ParamsOf(pieces) ==> Contains(s, p.name)
    decreases |pieces|
  {
    if pieces != [] {
      ParamNamesOccur(pieces[1..], s);
      if pieces[0] != "" {
        var p := ParseParam(pieces[0]);
        StartsWithContains(pieces[0], p.name);
        ContainsTransitive(s, pieces[0], p.name);
      }
    }
  }

  lemma {:induction false} GetNameOccurs(params: seq<Param>, name: string, s: string)
    requires forall p :: p in params ==> Contains(s, p.name)
    requires Get(params, name).Some?
    ensures Contains(s, name)
    decreases |params|
  {
    if params[0].name != name {
      assert forall p :: p in params[1..] ==> p in params;
      GetNameOccurs(params[1..], name, s);
    }
  }

  lemma ContainsTail(s: string)
    requires s != []
    ensures Contains(s, s[1..])
  {
    assert s[1..1 + |s[1..]|] == s[1..];
    ContainsAt(s, s[1..], 1);
  }

  lemma QueryNamesOccur(s: string, name: string)
    requires Get(Query(s), name).Some?
    ensures Contains(s, name)
  {
    var body := if s != [] && s[0] == '?' then s[1..] else s;
    ParamNamesOccur(Split(body, '&'), body);
    GetNameOccurs(Query(s), name, body);
    if body != s {
      ContainsTail(s);
      ContainsTransitive(s, body, name);
    }
  }

  /**
   * The callback page acts on a token, a code or a query error only when
   * the shell has recognised the redirect. An error carried in the hash
   * alone is the exception: the shell does not recognise it, so the page
   * that would read it is never shown.
   */
  lemma FoundImpliesRecognised(loc: Location)
    requires Lookup(loc).TokenFound? || Lookup(loc).CodeFound? || Truthy(Get(Query(loc.search), "error"))
    ensures IsOAuthCallback(loc)
  {
    if Lookup(loc).TokenFound? {
      QueryNamesOccur(HashBody(loc.hash), "access_token");
      if loc.hash != [] {
        ContainsTail(loc.hash);
        ContainsTransitive(loc.hash, HashBody(loc.hash), "access_token");
      }
    }
  }

  lemma ShorterNotContained(h: string, n: string)
    requires |h| < |n|
    ensures !Contains(h, n)
  {
    if Contains(h, n) {
      var i := ContainsWitness(h, n);
    }
  }

  lemma {:induction false} SplitWithoutSeparator(s: string, sep: char)
    requires sep !in s
    ensures Split(s, sep) == [s]
    decreases |s|
  {
    if s != [] {
      SplitWithoutSeparator(s[1..], sep);
      assert [s[0]] + s[1..] == s;
    }
  }

  lemma {:induction false} ParseNameValue(name: string, value: string)
    requires '=' !in name
    ensures ParseParam(name + "=" + value) == Param(name, value)
    decreases |name|
  {
    var piece := name + "=" + value;
    if name == [] {
      assert piece[1..] == value;
    } else {
      assert piece[1..] == name[1..] + "=" + value;
      ParseNameValue(name[1..], value);
      assert [name[0]] + name[1..] == name;
    }
  }

  lemma HashErrorParams(e: string)
    requires '&' !in e
    ensures Query("error=" + e) == [Param("error", e)]
  {
    var body := "error=" + e;
    assert '&' !in body;
    SplitWithoutSeparator(body, '&');
    ParseNameValue("error", e);
    assert "error" + "=" + e == body;
    assert ParamsOf([body]) == [ParseParam(body)] + ParamsOf([]);
  }

  lemma EmptyQuery()
    ensures Query("") == []
  {
    assert Split("", '&') == [""];
    assert ParamsOf([""]) == [] + ParamsOf([]);
  }

  lemma HashErrorAloneUnrecognised(e: string)
    requires e != "" && '&' !in e
    ensures var loc := Location("/", "#error=" + e, "");
      Lookup(loc) == ErrorFound(e) && (|e| < 5 ==> !IsOAuthCallback(loc))
  {
    var loc := Location("/", "#error=" + e, "");
    assert HashBody(loc.hash) == "error=" + e;
    HashErrorParams(e);
    EmptyQuery();
    assert Get([Param("error", e)], "access_token") == None;
    assert Get([Param("error", e)], "error") == Some(e);
    ShorterNotContained("/", "/oauth/callback");
    if |e| < 5 {
      ShorterNotContained(loc.hash, "access_token");
    }
  }

  // --------------------------------------------------------------- the shell

  /**
   * settings.gmailAccessToken. The success handler stores whatever object
   * onSuccess received, so the field can hold an object as well as text.
   */
  datatype Credential = TokenText(text: string) | PayloadObject(payload: AuthPayload)

  datatype Settings = Settings(isGmailConnected: bool, gmailAccessToken: Credential)

  datatype Tab = AssistantTab | DashboardTab | ResumeTab | SettingsTab

  /** A usable bearer token. */
  predicate UsableToken(c: Credential)
  {
    c.TokenText? && c.text != ""
  }

  /** handleOAuthSuccess as written: the argument object itself becomes the token. */
  function SuccessSettingsAsWritten(s: Settings, payload: AuthPayload): (r: Settings)
    ensures r.isGmailConnected && r.gmailAccessToken == PayloadObject(payload)
  {
    s.(isGmailConnected := true, gmailAccessToken := PayloadObject(payload))
  }

  /** After the implicit flow, the stored "token" is not a token at all. */
  lemma TokenStoredAsObject(s: Settings)
    ensures var r := SuccessSettingsAsWritten(s, AccessTokenPayload("abc"));
      r.isGmailConnected && !UsableToken(r.gmailAccessToken)
  {
  }

  /**
   * handleOAuthSuccess as evidently intended: the access token of the
   * implicit flow is stored as text; a code is not a token and leaves the
   * stored token alone until it is exchanged.
   */
  function SuccessSettings(s: Settings, payload: AuthPayload): Settings
  {
    match payload
    case AccessTokenPayload(t) => s.(isGmailConnected := true, gmailAccessToken := TokenText(t))
    case CodePayload(_) => s.(isGmailConnected := true)
  }

  lemma SuccessStoresToken(s: Settings, payload: AuthPayload)
    ensures SuccessSettings(s, payload).isGmailConnected
    ensures payload.AccessTokenPayload? && payload.accessToken != "" ==>
      UsableToken(SuccessSettings(s, payload).gmailAccessToken)
      && SuccessSettings(s, payload).gmailAccessToken.text == payload.accessToken
    ensures payload.CodePayload? ==> SuccessSettings(s, payload).gmailAccessToken == s.gmailAccessToken
    ensures !SuccessSettings(s, payload).gmailAccessToken.PayloadObject? || s.gmailAccessToken.PayloadObject?
  {
  }

  /** The result of syncGmailEmails, or the message of the error it threw. */
  datatype SyncResult = Synced(newAccessToken: string, functionCalls: seq<Option<FunctionCall>>) | SyncFailed(message: string)

  const SyncFailedText := "Gmail sync failed. Please try again."

  function ConnectionFailedText(error: string): string
  {
    "Gmail connection failed: " + error
  }

  /** One part of a sync result: saves and status updates run, everything else is skipped. */
  function SyncStep(apps: seq<Job>, part: Option<FunctionCall>, freshId: string): seq<Job>
  {
    match part
    case None => apps
    case Some(fc) =>
      if fc.name == SaveTool then SaveApps(apps, fc.args, freshId)
      else if fc.name == UpdateTool then UpdateStatusApps(apps, fc.args.company, fc.args.status)
      else apps
  }

  function SyncApps(apps: seq<Job>, parts: seq<Option<FunctionCall>>, freshIds: seq<string>): seq<Job>
    requires |freshIds| == |parts|
    decreases |parts|
  {
    if parts == [] then apps else SyncApps(SyncStep(apps, parts[0], freshIds[0]), parts[1..], freshIds[1..])
  }

  /** The calls a sync executes: the other ones are dropped from their place. */
  function SavesAndUpdates(parts: seq<Option<FunctionCall>>): (r: seq<Option<FunctionCall>>)
    ensures |r| == |parts|
    ensures forall k :: 0 <= k < |r| ==> r[k].Some? ==> r[k] == parts[k] && (r[k].value.name == SaveTool || r[k].value.name == UpdateTool)
  {
    seq(|parts|, k requires 0 <= k < |parts| =>
      if parts[k].Some? && (parts[k].value.name == SaveTool || parts[k].value.name == UpdateTool) then parts[k] else None)
  }

  /**
   * A sync changes the store exactly as the assistant's own dispatcher
   * would when given only the save and update calls of the result.
   */
  lemma {:induction false} SyncIsDispatch(apps: seq<Job>, parts: seq<Option<FunctionCall>>, freshIds: seq<string>)
    requires |freshIds| == |parts|
    ensures SyncApps(apps, parts, freshIds) == Chat.RunCalls(apps, SavesAndUpdates(parts), freshIds).apps
    decreases |parts|
  {
    if parts != [] {
      assert SavesAndUpdates(parts)[1..] == SavesAndUpdates(parts[1..]);
      SyncIsDispatch(SyncStep(apps, parts[0], freshIds[0]), parts[1..], freshIds[1..]);
    }
  }

  /** A result with no save or update call leaves the store as it was. */
  lemma {:induction false} OtherCallsIgnored(apps: seq<Job>, parts: seq<Option<FunctionCall>>, freshIds: seq<string>)
    requires |freshIds| == |parts|
    requires forall k :: 0 <= k < |parts| && parts[k].Some? ==> parts[k].value.name != SaveTool && parts[k].value.name != UpdateTool
    ensures SyncApps(apps, parts, freshIds) == apps
    decreases |parts|
  {
    if parts != [] {
      OtherCallsIgnored(apps, parts[1..], freshIds[1..]);
    }
  }

  /** The ids a sync step leaves: the old ones and at most the fresh one. */
  lemma SyncStepIds(apps: seq<Job>, part: Option<FunctionCall>, freshId: string)
    ensures Ids(SyncStep(apps, part, freshId)) <= Ids(apps) + {freshId}
  {
    match part
    case None =>
    case Some(fc) =>
      if fc.name == SaveTool {
        SaveIds(apps, fc.args, freshId);
      } else if fc.name == UpdateTool {
        UpdateIds(apps, fc.args.company, fc.args.status);
      }
  }

  class Shell {
    var settings: Settings
    var isSyncingGmail: bool
    var isOAuthCallback: bool
    var activeTab: Tab
    var alerts: seq<string>
    const store: JobStore

    ghost predicate Valid()
      reads this, store
    {
      store.Valid()
    }

    constructor (store: JobStore, settings: Settings)
      ensures this.store == store && this.settings == settings
      ensures !isSyncingGmail && !isOAuthCallback && activeTab == AssistantTab && alerts == []
    {
      this.store := store;
      this.settings := settings;
      isSyncingGmail := false;
      isOAuthCallback := false;
      activeTab := AssistantTab;
      alerts := [];
    }

    /** The mount effect: a recognised redirect shows the callback page. */
    method DetectCallback(loc: Location)
      modifies this
      ensures isOAuthCallback == (old(isOAuthCallback) || IsOAuthCallback(loc))
      ensures settings == old(settings) && isSyncingGmail == old(isSyncingGmail)
      ensures activeTab == old(activeTab) && alerts == old(alerts)
    {
      if IsOAuthCallback(loc) {
        isOAuthCallback := true;
      }
    }

    /** handleOAuthSuccess, with the stored token corrected. */
    method OAuthSuccess(payload: AuthPayload)
      modifies this
      ensures settings == SuccessSettings(old(settings), payload)
      ensures !isOAuthCallback && activeTab == SettingsTab
      ensures isSyncingGmail == old(isSyncingGmail) && alerts == old(alerts)
    {
      settings := SuccessSettings(settings, payload);
      isOAuthCallback := false;
      activeTab := SettingsTab;
    }

    /** handleOAuthError. */
    method OAuthError(error: string)
      modifies this
      ensures alerts == old(alerts) + [ConnectionFailedText(error)]
      ensures !isOAuthCallback && activeTab == SettingsTab
      ensures settings == old(settings) && isSyncingGmail == old(isSyncingGmail)
    {
      alerts := alerts + [ConnectionFailedText(error)];
      isOAuthCallback := false;
      activeTab := SettingsTab;
    }

    /**
     * handleSyncGmail with the sync's result. Nothing happens when Gmail is
     * not connected or a sync is running; otherwise a refreshed token is
     * stored, the save and update calls run in order, a failure is
     * reported, and the syncing flag ends cleared.
     */
    method SyncGmail(result: SyncResult, freshIds: seq<string>)
      requires Valid()
      requires result.Synced? ==> |freshIds| == |result.functionCalls| && Chat.FreshIds(store.apps, freshIds)
      modifies this, store
      ensures Valid()
      ensures !old(settings.isGmailConnected) || old(isSyncingGmail) ==>
        && settings == old(settings) && isSyncingGmail == old(isSyncingGmail)
        && alerts == old(alerts) && store.apps == old(store.apps)
      ensures old(settings.isGmailConnected) && !old(isSyncingGmail) ==>
        && !isSyncingGmail
        && (result.Synced? ==>
          && store.apps == SyncApps(old(store.apps), result.functionCalls, freshIds)
          && settings == (if result.newAccessToken != "" then old(settings).(gmailAccessToken := TokenText(result.newAccessToken))
                          else old(settings))
          && alerts == old(alerts))
        && (result.SyncFailed? ==>
          && store.apps == old(store.apps) && settings == old(settings)
          && alerts == old(alerts) + [if result.message != "" then result.message else SyncFailedText])
      ensures isOAuthCallback == old(isOAuthCallback) && activeTab == old(activeTab)
    {
      if !settings.isGmailConnected || isSyncingGmail {
        return;
      }
      isSyncingGmail := true;
      match result {
        case SyncFailed(message) =>
          alerts := alerts + [if message != "" then message else SyncFailedText];
        case Synced(newAccessToken, parts) =>
          if newAccessToken != "" {
            settings := settings.(gmailAccessToken := TokenText(newAccessToken));
          }
          RunSync(parts, freshIds);
      }
      isSyncingGmail := false;
    }

    /** The loop over the sync result's parts. */
    method RunSync(parts: seq<Option<FunctionCall>>, freshIds: seq<string>)
      requires Valid() && |freshIds| == |parts| && Chat.FreshIds(store.apps, freshIds)
      modifies store
      ensures Valid()
      ensures store.apps == SyncApps(old(store.apps), parts, freshIds)
    {
      ghost var apps0 := store.apps;
      for i := 0 to |parts|
        invariant Valid()
        invariant Chat.FreshFrom(store.apps, freshIds, i) && Chat.Distinct(freshIds)
        invariant SyncApps(apps0, parts, freshIds) == SyncApps(store.apps, parts[i..], freshIds[i..])
      {
        ghost var before := store.apps;
        assert parts[i..][1..] == parts[i + 1..] && freshIds[i..][1..] == freshIds[i + 1..];
        if parts[i].Some? {
          var fc := parts[i].value;
          if fc.name == SaveTool {
            var _ := store.Save(fc.args, freshIds[i]);
          } else if fc.name == UpdateTool {
            var _ := store.UpdateStatus(fc.args.company, fc.args.status);
          }
        }
        SyncStepIds(before, parts[i], freshIds[i]);
        Chat.FreshFromStep(before, store.apps, freshIds, i);
      }
    }
  }
}
